/** The parser of event streams line by line: what each line does, what an event may cost, how its data is joined. */
module SseLaws {
  import opened Prelude
  import opened Sse

  /** The cost of a line against the limit of its event; comments are free. */
  function Cost(line: string): nat {
    if line != "" && line[0] == ':' then 0 else |line| + 1
  }

  function CostOf(lines: seq<string>): nat {
    if lines == [] then 0 else CostOf(lines[..|lines| - 1]) + Cost(lines[|lines| - 1])
  }

  /** An event is refused exactly when its lines together cost more than the limit. */
  lemma {:induction false} OversizedEventsFailIff(s: State, lines: seq<string>, max: nat)
    requires s.failure.None? && s.pending.bytes <= max && "" !in lines
    ensures var t := ConsumeAll(s, lines, max);
      && (t.failure.None? <==> s.pending.bytes + CostOf(lines) <= max)
      && (t.failure.None? ==> t.pending.bytes == s.pending.bytes + CostOf(lines))
      && (t.failure.Some? ==> t.failure == Some(EventTooLong))
  {
    if lines != [] {
      var front, last := lines[..|lines| - 1], lines[|lines| - 1];
      assert last in lines;
      OversizedEventsFailIff(s, front, max);
    }
  }

  /** A blank line ends the event: it is yielded if it has data, and nothing of it is left. */
  lemma BlankLines(s: State, max: nat)
    requires s.failure.None?
    ensures var t := Consume(s, "", max);
      && t.pending == Pending([], None, None, 0) && t.failure.None? && t.buffer == s.buffer
      && t.out == if s.pending.data == [] then s.out
                  else s.out + [SseMessage(Join(s.pending.data), s.pending.event, s.pending.id)]
  {
  }

  lemma Comments(s: State, text: string, max: nat)
    ensures Consume(s, [':'] + text, max) == s
  {
  }

  /** What a field within the limit does; a line without a colon is a field without a value. */
  lemma Fields(s: State, name: string, value: string, colon: bool, max: nat)
    requires s.failure.None? && ':' !in name && name != ""
    requires var line := if colon then name + [':'] + value else name; s.pending.bytes + |line| + 1 <= max
    ensures var line := if colon then name + [':'] + value else name;
            var given := if !colon then "" else if value != "" && value[0] == ' ' then value[1..] else value;
            var p, q := s.pending, Consume(s, line, max).pending;
      && Consume(s, line, max) == s.(pending := q)
      && q.bytes == p.bytes + |line| + 1
      && q.data == (if name == "data" then p.data + [given] else p.data)
      && q.event == (if name == "event" then Some(given) else p.event)
      && q.id == (if name == "id" && '\0' !in given then Some(given) else p.id)
  {
    var line := if colon then name + [':'] + value else name;
    assert line[0] == name[0];
    if colon {
      assert line[..|name|] == name && line[|name| + 1..] == value;
      IndexIs(line, ':', |name|);
    } else {
      assert Index(line, ':') == |line| && line[..|line|] == line;
    }
  }

  /** The end of the stream acts like two line feeds: it completes the last line and ends the event. */
  lemma EndsActAsLineFeeds(s: State, max: nat)
    requires s.failure.None?
    ensures Finish(s, max).(buffer := "") == Scan(s, "\n\n", max)
  {
    assert "\n\n"[..1] == "\n" && "\n"[..0] == "";
    assert Scan(s, "\n", max) == Read(s, '\n', max);
    assert Scan(s, "\n\n", max) == Read(Read(s, '\n', max), '\n', max);
    ConsumeIgnoresBuffer(Consume(s, Chomp(s.buffer), max), "", "", max);
  }

  /** One carriage return before the line feed does not belong to the line. */
  lemma LineEndings(line: string)
    ensures Chomp(line + "\r") == line
    ensures line == "" || line[|line| - 1] != '\r' ==> Chomp(line) == line
  {
    assert (line + "\r")[..|line|] == line;
  }

  // ----- joined lines -----

  /** The lines of a text. */
  function Split(text: string): seq<string> {
    if text == "" then [""]
    else
      var before, c := Split(text[..|text| - 1]), text[|text| - 1];
      if c == '\n' then before + [""]
      else if before == [] then [[c]]
      else before[..|before| - 1] + [before[|before| - 1] + [c]]
  }

  /** Joining loses nothing: the lines of the data are the lines that were sent. */
  lemma {:induction false} SplitJoin(lines: seq<string>)
    requires lines != [] && forall i :: 0 <= i < |lines| ==> '\n' !in lines[i]
    ensures Split(Join(lines)) == lines
  {
    var n := |lines| - 1;
    if n == 0 {
      SplitMore("", lines[0]);
      assert "" + lines[0] == lines[0];
    } else {
      SplitJoin(lines[..n]);
      OneMoreLineJoined(lines[..n], Join(lines[..n]), lines[n]);
      assert lines[..n] + [lines[n]] == lines;
    }
  }

  lemma OneMoreLineJoined(front: seq<string>, joined: string, last: string)
    requires front != [] && Split(joined) == front && '\n' !in last
    ensures Split(joined + "\n" + last) == front + [last]
  {
    assert (joined + "\n")[..|joined|] == joined;
    assert Split(joined + "\n") == front + [""];
    SplitMore(joined + "\n", last);
    LastLine(front, last);
  }

  lemma LastLine(front: seq<string>, last: string)
    ensures Continued(front + [""], last) == front + [last]
  {
    assert (front + [""])[..|front|] == front && "" + last == last;
  }

  /** Text without a line feed continues the last line. */
  lemma {:induction false} SplitMore(text: string, more: string)
    requires '\n' !in more
    ensures Split(text) != [] && Split(text + more) == Continued(Split(text), more)
  {
    SplitSome(text);
    if more == "" {
      assert text + more == text;
      NothingMore(Split(text));
    } else {
      var front, c := more[..|more| - 1], more[|more| - 1];
      SplitMore(text, front);
      OneMoreCharacter(Split(text), text + front, front, c);
      Regroup(text, front, [c]);
      assert front + [c] == more;
    }
  }

  lemma NothingMore(lines: seq<string>)
    requires lines != []
    ensures Continued(lines, "") == lines
  {
    assert lines[|lines| - 1] + "" == lines[|lines| - 1];
  }

  function Continued(lines: seq<string>, more: string): seq<string>
    requires lines != []
  {
    lines[..|lines| - 1] + [lines[|lines| - 1] + more]
  }

  lemma OneMoreCharacter(lines: seq<string>, text: string, front: string, c: char)
    requires lines != [] && Split(text) == Continued(lines, front) && c != '\n'
    ensures Split(text + [c]) == Continued(lines, front + [c])
  {
    var before := Split(text);
    assert (text + [c])[..|text|] == text;
    assert before[..|before| - 1] == lines[..|lines| - 1];
    Regroup(lines[|lines| - 1], front, [c]);
  }

  lemma SplitSome(text: string)
    ensures Split(text) != []
  {
  }
}
