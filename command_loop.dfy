/** The menu bar server's command loop (`MenuBarServer.run`): one snapshot when the server
    starts, then one reply per command line read from standard input. */
module CommandLoop {
  import opened Common

  /** The characters `str.isspace` accepts, which `str.strip` removes: the ASCII controls
      tab to carriage return and file to unit separator, the space, next line, no-break space
      and the other Unicode space and separator characters. */
  predicate IsSpace(c: char) {
    || ('\t' <= c <= '\r')
    || ('\U{001C}' <= c <= ' ')
    || c == '\U{0085}' || c == '\U{00A0}' || c == '\U{1680}'
    || ('\U{2000}' <= c <= '\U{200A}')
    || c == '\U{2028}' || c == '\U{2029}' || c == '\U{202F}' || c == '\U{205F}' || c == '\U{3000}'
  }

  /** The number of whitespace characters `s` starts with. */
  function LeadingSpaces(s: string): (n: nat)
    ensures n <= |s|
    ensures forall k :: 0 <= k < n ==> IsSpace(s[k])
    ensures n < |s| ==> !IsSpace(s[n])
  {
    if s == [] || !IsSpace(s[0]) then 0 else 1 + LeadingSpaces(s[1..])
  }

  /** The number of whitespace characters `s` ends with. */
  function TrailingSpaces(s: string): (n: nat)
    ensures n <= |s|
    ensures forall k :: |s| - n <= k < |s| ==> IsSpace(s[k])
    ensures n < |s| ==> !IsSpace(s[|s| - n - 1])
  {
    if s == [] || !IsSpace(s[|s| - 1]) then 0 else 1 + TrailingSpaces(s[..|s| - 1])
  }

  /** `str.strip`: the text between the leading and the trailing whitespace. */
  function Strip(s: string): (r: string)
    ensures r == [] <==> forall k :: 0 <= k < |s| ==> IsSpace(s[k])
    ensures r != [] ==> !IsSpace(r[0]) && !IsSpace(r[|r| - 1])
    ensures r != [] ==> r == s[LeadingSpaces(s)..|s| - TrailingSpaces(s)]
  {
    var n := LeadingSpaces(s);
    if n == |s| then []
    else
      var m := TrailingSpaces(s);
      assert !IsSpace(s[n]);
      assert !IsSpace(s[|s| - m - 1]);
      s[n..|s| - m]
  }

  /** What `json.loads` makes of a stripped line: not JSON at all, a JSON value other than an
      object (named by its Python type), or an object with its optional `command` and
      `question` strings. */
  datatype Decoded = BadJson | NotObject(typeName: string) | Object(command: Option<string>, question: Option<string>)

  /** One `readline`: the end of input, or a line with what its stripped text decodes to. */
  datatype InputLine = Eof | Line(text: string, decoded: Decoded)

  /** What the server writes for a line: a fresh `fetch_data` snapshot, the `handle_ask`
      response to a question, or an `{"error": ...}` object. */
  datatype Output = Data | Answer(question: string) | ErrorLine(message: string)

  /** A line after which the loop stops: the end of input or the `quit` command. */
  predicate Ends(line: InputLine) {
    line.Eof? || (line.Line? && Strip(line.text) != [] && line.decoded.Object? && line.decoded.command == Some("quit"))
  }

  predicate Blank(line: InputLine) {
    line.Line? && Strip(line.text) == []
  }

  /** The reply to a line that neither ends the loop nor is blank. */
  function Reply(line: InputLine): (o: Output)
    requires !Ends(line) && !Blank(line)
    ensures line.decoded.BadJson? <==> o.ErrorLine? && o.message == "Invalid JSON: " + Strip(line.text)
    ensures o.Data? <==> line.decoded.Object? && line.decoded.command == Some("refresh")
    ensures o.Answer? <==> line.decoded.Object? && line.decoded.command == Some("ask")
                           && line.decoded.question.Some? && line.decoded.question.value != []
    ensures o.Answer? ==> o.question == line.decoded.question.value
    ensures line.decoded.Object? && line.decoded.command == Some("ask") && line.decoded.question.GetOr([]) == [] ==>
      o == ErrorLine("Missing question")
    ensures line.decoded.Object? && line.decoded.command.GetOr([]) != "refresh" && line.decoded.command.GetOr([]) != "ask" ==>
      o == ErrorLine("Unknown command: " + line.decoded.command.GetOr([]))
    ensures line.decoded.NotObject? ==> o == ErrorLine("'" + line.decoded.typeName + "' object has no attribute 'get'")
  {
    match line.decoded
    case BadJson => ErrorLine("Invalid JSON: " + Strip(line.text))
    case NotObject(t) =>
      var m := "'" + t + "' object has no attribute 'get'";
      assert m[0] != ("Invalid JSON: " + Strip(line.text))[0];
      ErrorLine(m)
    case Object(command, question) =>
      var c := command.GetOr([]);
      if c == "refresh" then Data
      else if c == "ask" then
        (var q := question.GetOr([]);
         if q != [] then Answer(q)
         else
           assert "Missing question"[0] != ("Invalid JSON: " + Strip(line.text))[0];
           ErrorLine("Missing question"))
      else
        var m := "Unknown command: " + c;
        assert m[0] != ("Invalid JSON: " + Strip(line.text))[0];
        ErrorLine(m)
  }

  /** Everything the loop writes after the first snapshot for the lines still to read. */
  function Respond(input: seq<InputLine>): (r: seq<Output>)
    ensures |r| <= |input|
    ensures input != [] && Ends(input[0]) ==> r == []
  {
    if input == [] || Ends(input[0]) then []
    else if Blank(input[0]) then Respond(input[1..])
    else [Reply(input[0])] + Respond(input[1..])
  }

  /** `run`: writes the first snapshot, then reads and answers lines until the end of input or
      `quit`. */
  method Run(input: seq<InputLine>) returns (out: seq<Output>)
    ensures out == [Data] + Respond(input)
  {
    out := [Data];
    var i := 0;
    while i < |input|
      invariant 0 <= i <= |input|
      invariant out + Respond(input[i..]) == [Data] + Respond(input)
    {
      var line := input[i];
      if Ends(line) {
        break;
      }
      if !Blank(line) {
        out := out + [Reply(line)];
      }
      assert input[i..][1..] == input[i + 1..];
      i := i + 1;
    }
  }

  /** Nothing after the end of input or `quit` is read. */
  lemma {:induction false} NothingAfterEnd(before: seq<InputLine>, end: InputLine, after: seq<InputLine>)
    requires Ends(end)
    ensures Respond(before + [end] + after) == Respond(before)
  {
    if before == [] {
      assert (before + [end] + after)[0] == end;
    } else {
      assert (before + [end] + after)[1..] == before[1..] + [end] + after;
      NothingAfterEnd(before[1..], end, after);
    }
  }

  /** A blank line changes nothing in what the loop writes. */
  lemma {:induction false} BlankLinesIgnored(before: seq<InputLine>, blank: InputLine, after: seq<InputLine>)
    requires Blank(blank)
    ensures Respond(before + [blank] + after) == Respond(before + after)
  {
    if before == [] {
      assert (before + [blank] + after)[0] == blank;
      assert (before + [blank] + after)[1..] == after == before + after;
    } else {
      assert (before + [blank] + after)[1..] == before[1..] + [blank] + after;
      assert (before + after)[1..] == before[1..] + after;
      assert (before + after)[0] == before[0];
      BlankLinesIgnored(before[1..], blank, after);
    }
  }

  /** The lines that are neither blank nor end the loop. */
  function Answered(input: seq<InputLine>): nat {
    if input == [] then 0
    else (if Ends(input[0]) || Blank(input[0]) then 0 else 1) + Answered(input[1..])
  }

  /** Until the loop ends, every other non-blank line gets exactly one reply, in order. */
  lemma {:induction false} OneReplyPerLine(input: seq<InputLine>)
    requires forall k :: 0 <= k < |input| ==> !Ends(input[k])
    ensures |Respond(input)| == Answered(input)
    ensures Respond(input) == [] <==> forall k :: 0 <= k < |input| ==> Blank(input[k])
  {
    if input != [] {
      assert forall k :: 0 <= k < |input[1..]| ==> input[1..][k] == input[k + 1];
      OneReplyPerLine(input[1..]);
      if Blank(input[0]) {
        assert (forall k :: 0 <= k < |input| ==> Blank(input[k])) <==>
               (forall k :: 0 <= k < |input[1..]| ==> Blank(input[1..][k]));
      } else {
        assert !Blank(input[0]);
      }
    }
  }
}
