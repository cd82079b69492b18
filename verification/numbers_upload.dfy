/**
 * The phone-number list of the dashboard (NumbersUpload.tsx): text from a
 * file or the paste box is split into lines and the non-blank lines replace
 * the list.
 */
module NumbersUpload {
  import opened Common
  import opened Text

  /** The component's state: the list, the paste box and the upload spinner. */
  datatype Uploader = Uploader(numbers: seq<string>, text: string, uploading: bool)

  /** Why a request was refused (the destructive toast). */
  datatype Refusal = NoNumbersFound | NoNumbersAvailable

  /** One carriage return at the end of a line is part of the `\r\n` separator. */
  function DropCR(line: string): (r: string)
    ensures r == line || (line == r + "\r")
  {
    if |line| > 0 && line[|line| - 1] == '\r' then line[..|line| - 1] else line
  }

  /** Every piece but the last was followed by `\n`, so it loses a trailing `\r`. */
  function DropSeparatorCRs(pieces: seq<string>): (r: seq<string>)
    ensures |r| == |pieces|
  {
    if |pieces| <= 1 then pieces
    else [DropCR(pieces[0])] + DropSeparatorCRs(pieces[1..])
  }

  /** `content.split(/\r?\n/)`. */
  function SplitLines(content: string): seq<string> {
    DropSeparatorCRs(Split(content, '\n'))
  }

  /** `line.trim().length > 0`. */
  predicate Filled(line: string) {
    Trim(line) != ""
  }

  /** The numbers read from a text: its non-blank lines, untrimmed and in order. */
  function ParseNumbers(content: string): (r: seq<string>)
    ensures forall i :: 0 <= i < |r| ==> !Blank(r[i]) && '\n' !in r[i]
  {
    var lines := SplitLines(content);
    assert forall i :: 0 <= i < |lines| ==> '\n' !in lines[i] by {
      DropSeparatorCRsKeeps(Split(content, '\n'));
    }
    Filter(lines, Filled)
  }

  /** Dropping separator carriage returns adds no newline. */
  lemma {:induction false} DropSeparatorCRsKeeps(pieces: seq<string>)
    requires forall i :: 0 <= i < |pieces| ==> '\n' !in pieces[i]
    ensures forall i :: 0 <= i < |pieces| ==> '\n' !in DropSeparatorCRs(pieces)[i]
  {
    if |pieces| > 1 {
      DropSeparatorCRsKeeps(pieces[1..]);
      var r := DropSeparatorCRs(pieces);
      forall i | 0 <= i < |pieces|
        ensures '\n' !in r[i]
      {
        if i > 0 {
          assert r[i] == DropSeparatorCRs(pieces[1..])[i - 1];
        }
      }
    }
  }

  /** `lines.join(sep)` with a carriage return added to every line but the last. */
  function WithCRs(lines: seq<string>): (r: seq<string>)
    ensures |r| == |lines|
  {
    if |lines| <= 1 then lines
    else [lines[0] + "\r"] + WithCRs(lines[1..])
  }

  /** Lines that end in a carriage return would lose it when followed by `\n`. */
  predicate PlainLine(line: string) {
    '\n' !in line && (line == [] || line[|line| - 1] != '\r')
  }

  /** Lines written one per line, with Unix or Windows line ends, are read back unchanged. */
  lemma ParseJoined(lines: seq<string>)
    requires forall i :: 0 <= i < |lines| ==> PlainLine(lines[i]) && !Blank(lines[i])
    ensures ParseNumbers(Join(lines, "\n")) == lines
    ensures ParseNumbers(Join(lines, "\r\n")) == lines
  {
    if lines == [] {
      SplitNoSeparator("", '\n');
    } else {
      SplitJoin(lines, '\n');
      DropCRsOfPlain(lines);
      assert Join(lines, "\r\n") == Join(WithCRs(lines), "\n") by {
        JoinWithCRs(lines);
      }
      WithCRsNoNewline(lines);
      SplitJoin(WithCRs(lines), '\n');
      DropCRsOfWithCRs(lines);
      FilterAll(lines, Filled);
    }
  }

  lemma {:induction false} DropCRsOfPlain(lines: seq<string>)
    requires forall i :: 0 <= i < |lines| ==> PlainLine(lines[i])
    ensures DropSeparatorCRs(lines) == lines
  {
    if |lines| > 1 {
      DropCRsOfPlain(lines[1..]);
    }
  }

  lemma {:induction false} DropCRsOfWithCRs(lines: seq<string>)
    ensures DropSeparatorCRs(WithCRs(lines)) == lines
  {
    if |lines| > 1 {
      DropCRsOfWithCRs(lines[1..]);
      assert DropCR(lines[0] + "\r") == lines[0];
    }
  }

  lemma {:induction false} JoinWithCRs(lines: seq<string>)
    ensures Join(lines, "\r\n") == Join(WithCRs(lines), "\n")
  {
    if |lines| > 1 {
      JoinWithCRs(lines[1..]);
      assert lines[0] + "\r" + "\n" == lines[0] + "\r\n";
    }
  }

  lemma {:induction false} WithCRsNoNewline(lines: seq<string>)
    requires forall i :: 0 <= i < |lines| ==> '\n' !in lines[i]
    ensures forall i :: 0 <= i < |lines| ==> '\n' !in WithCRs(lines)[i]
  {
    if |lines| > 1 {
      WithCRsNoNewline(lines[1..]);
      var r := WithCRs(lines);
      forall i | 0 <= i < |lines|
        ensures '\n' !in r[i]
      {
        if i > 0 {
          assert r[i] == WithCRs(lines[1..])[i - 1];
        }
      }
    }
  }

  /** Text that is not blank yields at least one number: a visible character lands on a non-blank line. */
  lemma {:induction false} FilledTextHasNumbers(content: string)
    requires !Blank(content)
    ensures ParseNumbers(content) != []
  {
    var pieces := Split(content, '\n');
    var lines := SplitLines(content);
    if forall i :: 0 <= i < |lines| ==> Blank(lines[i]) {
      BlankDropCRs(pieces);
      JoinBlank(pieces, "\n");
      JoinSplit(content, '\n');
      assert false;
    }
    var i :| 0 <= i < |lines| && !Blank(lines[i]);
    assert lines[i] in ParseNumbers(content);
  }

  /** A piece that is blank once its carriage return is dropped was blank already. */
  lemma {:induction false} BlankDropCRs(pieces: seq<string>)
    requires forall i :: 0 <= i < |pieces| ==> Blank(DropSeparatorCRs(pieces)[i])
    ensures forall i :: 0 <= i < |pieces| ==> Blank(pieces[i])
  {
    if |pieces| > 1 {
      var rest := DropSeparatorCRs(pieces[1..]);
      assert DropSeparatorCRs(pieces) == [DropCR(pieces[0])] + rest;
      forall j | 0 <= j < |rest|
        ensures Blank(rest[j])
      {
        assert rest[j] == DropSeparatorCRs(pieces)[j + 1];
      }
      BlankDropCRs(pieces[1..]);
      assert Blank(DropSeparatorCRs(pieces)[0]);
      BlankDropCR(pieces[0]);
      forall i | 0 <= i < |pieces|
        ensures Blank(pieces[i])
      {
        if i > 0 {
          assert pieces[i] == pieces[1..][i - 1];
        }
      }
    } else {
      assert DropSeparatorCRs(pieces) == pieces;
    }
  }

  lemma BlankDropCR(line: string)
    requires Blank(DropCR(line))
    ensures Blank(line)
  {
    if DropCR(line) != line {
      assert line == DropCR(line) + "\r";
      assert forall i :: 0 <= i < |line| - 1 ==> line[i] == DropCR(line)[i];
    }
  }

  /** Joining blank pieces with a blank separator gives a blank text. */
  lemma {:induction false} JoinBlank(pieces: seq<string>, sep: string)
    requires Blank(sep)
    requires forall i :: 0 <= i < |pieces| ==> Blank(pieces[i])
    ensures Blank(Join(pieces, sep))
  {
    if |pieces| > 1 {
      JoinBlank(pieces[1..], sep);
    }
  }

  /** `handleFileUpload`: no chosen file changes nothing; a read file replaces the list with its numbers. */
  function FileUpload(u: Uploader, file: Option<string>): (r: Uploader)
    ensures file.None? ==> r == u
    ensures file.Some? ==> r == u.(numbers := ParseNumbers(file.value), uploading := false)
  {
    match file
    case None => u
    case Some(content) => u.(numbers := ParseNumbers(content), uploading := false)
  }

  /** `handlePasteNumbers`: blank text is refused; otherwise its numbers replace the list and the box is emptied. */
  function PasteNumbers(u: Uploader): (r: Result<Uploader, Refusal>)
    ensures r.Failure? <==> Blank(u.text)
    ensures r.Success? ==> r.value == u.(numbers := ParseNumbers(u.text), text := "")
    ensures r.Success? ==> r.value.numbers != []
  {
    if Trim(u.text) == "" then Failure(NoNumbersFound)
    else
      FilledTextHasNumbers(u.text);
      Success(u.(numbers := ParseNumbers(u.text), text := ""))
  }

  /** `handleClearNumbers`. */
  function ClearNumbers(u: Uploader): (r: Uploader)
    ensures r.numbers == [] && r.text == u.text && r.uploading == u.uploading
  {
    u.(numbers := [])
  }

  /** `handleStartCampaign`: refused with no numbers, otherwise started with the whole list. */
  function StartCampaign(u: Uploader): (r: Result<seq<string>, Refusal>)
    ensures r.Failure? <==> u.numbers == []
    ensures r.Success? ==> r.value == u.numbers
  {
    if |u.numbers| == 0 then Failure(NoNumbersAvailable) else Success(u.numbers)
  }

  /** After a successful paste the campaign can start; after a clear it cannot. */
  lemma PasteThenStart(u: Uploader)
    ensures PasteNumbers(u).Success? ==> StartCampaign(PasteNumbers(u).value).Success?
    ensures StartCampaign(ClearNumbers(u)).Failure?
  {
  }
}
