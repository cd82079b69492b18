/**
 * The candidate record written to the `candidates` table (candidateService.ts).
 * The answers arrive as a JavaScript object of arbitrary values; the record
 * is built from a few of them and upserted by phone.
 */
module Candidates {
  import opened Common
  import opened Text

  /** The JavaScript values an answer can hold. Objects and arrays are `Obj` (always truthy). */
  datatype JsValue = Undefined | Null | Bool(b: bool) | Num(n: int) | Str(s: string) | Obj

  /** JavaScript truthiness: `undefined`, `null`, `false`, `0` and `""` are falsy. */
  predicate Truthy(v: JsValue) {
    match v
    case Undefined => false
    case Null => false
    case Bool(b) => b
    case Num(n) => n != 0
    case Str(s) => s != ""
    case Obj => true
  }

  /** `answers.key`: a missing property reads as `undefined`. */
  function Prop(answers: map<string, JsValue>, key: string): (r: JsValue)
    ensures key !in answers ==> r == Undefined
    ensures key in answers ==> r == answers[key]
  {
    if key in answers then answers[key] else Undefined
  }

  datatype Qualification = Qualified | NotQualified

  datatype Candidate = Candidate(
    phone: string, name: JsValue, experience: JsValue, ctc: JsValue,
    noticePeriod: JsValue, qualification: Qualification, status: string,
    createdAt: string)

  const NEW := "new"
  const UNKNOWN_NAME := "Unknown"

  /**
   * The record built from a sender and its answers; `now` is the ISO time
   * of the call. The name falls back to "Unknown" when the company is falsy.
   */
  function Record(sender: string, answers: map<string, JsValue>, now: string): (r: Candidate)
    ensures '@' !in r.phone && r.phone <= sender
    ensures r.phone == BeforeFirst(sender, '@')
    ensures r.name == if Truthy(Prop(answers, "company")) then answers["company"] else Str(UNKNOWN_NAME)
    ensures r.qualification == Qualified <==> Truthy(Prop(answers, "qualified"))
    ensures r.status == NEW && r.createdAt == now
    ensures r.experience == Prop(answers, "experience") && r.ctc == Prop(answers, "ctc")
            && r.noticePeriod == Prop(answers, "notice")
  {
    var company := Prop(answers, "company");
    Candidate(
      BeforeFirst(sender, '@'),
      if Truthy(company) then company else Str(UNKNOWN_NAME),
      Prop(answers, "experience"),
      Prop(answers, "ctc"),
      Prop(answers, "notice"),
      if Truthy(Prop(answers, "qualified")) then Qualified else NotQualified,
      NEW,
      now)
  }

  /** The table, keyed by its conflict column `phone`. */
  type Table = map<string, Candidate>

  /** Every row is filed under its own phone. */
  predicate Keyed(t: Table) {
    forall p :: p in t ==> t[p].phone == p
  }

  /** What the upsert call reports: success, or the error it returned or threw. */
  datatype StoreOutcome = Stored | StoreError(message: string)

  /**
   * `storeCandidate`: upsert the record, replacing any row with the same
   * phone. An error from the store reaches the caller, and the table is then
   * as it was.
   */
  function StoreCandidate(t: Table, sender: string, answers: map<string, JsValue>, now: string, outcome: StoreOutcome): (r: Result<Table, string>)
    ensures outcome.StoreError? <==> r.Failure?
    ensures r.Failure? ==> r.error == outcome.message
    ensures r.Success? ==> r.value == t[BeforeFirst(sender, '@') := Record(sender, answers, now)]
  {
    match outcome
    case StoreError(e) => Failure(e)
    case Stored => var c := Record(sender, answers, now); Success(t[c.phone := c])
  }

  /** Storing keeps one row per phone, grows the table by at most one row, and the last store for a phone wins. */
  lemma StoreKeepsOneRowPerPhone(t: Table, sender: string, answers: map<string, JsValue>, now: string)
    requires Keyed(t)
    ensures var r := StoreCandidate(t, sender, answers, now, Stored).value;
            && Keyed(r)
            && |r.Keys| <= |t.Keys| + 1
            && r[BeforeFirst(sender, '@')] == Record(sender, answers, now)
  {
    var c := Record(sender, answers, now);
    var r := t[c.phone := c];
    assert r.Keys == t.Keys + {c.phone};
  }

  /** Two chat ids with the same number before the `@` update the same row. */
  lemma SameNumberSameRow(t: Table, number: string, host1: string, host2: string,
                          a1: map<string, JsValue>, a2: map<string, JsValue>, now1: string, now2: string)
    requires '@' !in number
    requires Keyed(t)
    ensures var t1 := StoreCandidate(t, number + "@" + host1, a1, now1, Stored).value;
            var t2 := StoreCandidate(t1, number + "@" + host2, a2, now2, Stored).value;
            t2.Keys == t1.Keys && number in t2 && t2[number] == Record(number + "@" + host2, a2, now2)
  {
    BeforeFirstAt(number, host1);
    BeforeFirstAt(number, host2);
  }

  /** The number of a chat id `number@host` is the part before the `@`. */
  lemma {:induction false} BeforeFirstAt(number: string, host: string)
    requires '@' !in number
    ensures BeforeFirst(number + "@" + host, '@') == number
  {
    if number != [] {
      assert (number + "@" + host)[1..] == number[1..] + "@" + host;
      BeforeFirstAt(number[1..], host);
    }
  }

  /** The screening bot stores every answer as a string and never a `qualified` key, so such a candidate is never qualified. */
  lemma ScreeningAnswersNeverQualify(sender: string, answers: map<string, string>, now: string)
    requires "qualified" !in answers
    ensures Record(sender, AsJs(answers), now).qualification == NotQualified
  {
  }

  /** Python string answers as JavaScript values. */
  function AsJs(answers: map<string, string>): (r: map<string, JsValue>)
    ensures r.Keys == answers.Keys
    ensures forall k :: k in answers ==> r[k] == Str(answers[k])
  {
    map k | k in answers :: Str(answers[k])
  }
}
