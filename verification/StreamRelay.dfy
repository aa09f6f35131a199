/**
 The loops that read a child's pipes line by line and turn lines into relay messages,
 in both implementations. Trimming and JSON parsing are left to an oracle.
 */
module StreamRelay {
  import opened Protocol
  import opened Sequences

  datatype Oracle = Oracle(trim: string -> string, parse: string -> Option<Json>)

  /** What a read from a pipe can return. */
  datatype ReadEvent = Text(line: string) | Eof | Failed

  /** What a relay task reports. */
  datatype Body = OutLine(data: Json) | TextLine(text: string) | Ended(code: Option<int>)

  /** Everything reported about stdout is an object: other values are wrapped. */
  function Wrap(v: Json): (r: Json)
    ensures r.Object?
    ensures v.Object? ==> r == v
    ensures !v.Object? ==> r.fields == map["raw" := v]
  {
    if v.Object? then v else Object(map["raw" := v])
  }

  // ---- the specification ----

  /** The lines read before the stream ended. */
  function Lines(evs: seq<ReadEvent>): seq<string>
  {
    if evs == [] || !evs[0].Text? then [] else [evs[0].line] + Lines(evs[1..])
  }

  /** The stream ended, and by end of file rather than by an error. */
  predicate EndsNormally(evs: seq<ReadEvent>)
  {
    evs != [] && (evs[0].Eof? || (evs[0].Text? && EndsNormally(evs[1..])))
  }

  predicate AllText(evs: seq<ReadEvent>) {
    forall i :: 0 <= i < |evs| ==> evs[i].Text?
  }

  function NonBlank(o: Oracle, lines: seq<string>): seq<string>
  {
    if lines == [] then []
    else
      var line := o.trim(lines[|lines| - 1]);
      NonBlank(o, lines[..|lines| - 1]) + if line == "" then [] else [line]
  }

  /** The one report a nonblank trimmed stdout line leads to. */
  function Report(o: Oracle, line: string): Body
  {
    match o.parse(line)
    case Some(v) => OutLine(Wrap(v))
    case None => TextLine(line)
  }

  function Reports(o: Oracle, lines: seq<string>): (r: seq<Body>)
    ensures |r| == |lines|
    ensures forall i :: 0 <= i < |r| ==> r[i] == Report(o, lines[i])
  {
    seq(|lines|, i requires 0 <= i < |lines| => Report(o, lines[i]))
  }

  function TextReports(lines: seq<string>): (r: seq<Body>)
    ensures |r| == |lines|
    ensures forall i :: 0 <= i < |r| ==> r[i] == TextLine(lines[i])
  {
    seq(|lines|, i requires 0 <= i < |lines| => TextLine(lines[i]))
  }

  /** Everything a stdout relay reports: one report per nonblank line, and an exit after a normal end. */
  function StdoutReports(o: Oracle, evs: seq<ReadEvent>, code: Option<int>): seq<Body>
  {
    Reports(o, NonBlank(o, Lines(evs))) + if EndsNormally(evs) then [Ended(code)] else []
  }

  function StderrReports(o: Oracle, evs: seq<ReadEvent>): seq<Body>
  {
    TextReports(NonBlank(o, Lines(evs)))
  }

  // ---- one more event ----

  lemma {:induction false} LinesLast(evs: seq<ReadEvent>, ev: ReadEvent)
    requires AllText(evs)
    ensures Lines(evs + [ev]) == Lines(evs) + if ev.Text? then [ev.line] else []
    ensures EndsNormally(evs + [ev]) == ev.Eof?
    ensures !EndsNormally(evs)
  {
    if evs == [] {
      assert evs + [ev] == [ev];
    } else {
      LinesLast(evs[1..], ev);
      assert (evs + [ev])[1..] == evs[1..] + [ev];
    }
  }

  /** What the stdout task sends on reading one event. */
  function StdoutStep(o: Oracle, ev: ReadEvent): seq<Body>
  {
    match ev
    case Text(text) =>
      var line := o.trim(text);
      if line == "" then []
      else (
        match o.parse(line)
        case Some(v) => [OutLine(Wrap(v))]
        case None => [TextLine(line)]
      )
    case Eof => [Ended(None)]
    case Failed => []
  }

  function StderrStep(o: Oracle, ev: ReadEvent): seq<Body>
  {
    match ev
    case Text(text) => if o.trim(text) == "" then [] else [TextLine(o.trim(text))]
    case Eof => []
    case Failed => []
  }

  lemma NonBlankLast(o: Oracle, lines: seq<string>, line: string)
    ensures NonBlank(o, lines + [line]) == NonBlank(o, lines) + if o.trim(line) == "" then [] else [o.trim(line)]
  {
    assert (lines + [line])[..|lines|] == lines;
  }

  /** Reading event by event adds up to the specification. */
  lemma StepsAddUp(o: Oracle, evs: seq<ReadEvent>, ev: ReadEvent)
    requires AllText(evs)
    ensures StdoutReports(o, evs + [ev], None) == StdoutReports(o, evs, None) + StdoutStep(o, ev)
    ensures StderrReports(o, evs + [ev]) == StderrReports(o, evs) + StderrStep(o, ev)
  {
    LinesLast(evs, ev);
    var before := NonBlank(o, Lines(evs));
    if ev.Text? {
      NonBlankLast(o, Lines(evs), ev.line);
      if o.trim(ev.line) == "" {
        assert before + [] == before;
      } else {
        ReportsLast(o, before, o.trim(ev.line));
      }
    } else {
      assert Lines(evs) + [] == Lines(evs);
    }
  }

  lemma ReportsLast(o: Oracle, lines: seq<string>, line: string)
    ensures Reports(o, lines + [line]) == Reports(o, lines) + [Report(o, line)]
    ensures TextReports(lines + [line]) == TextReports(lines) + [TextLine(line)]
  {
  }

  /**
   The shape of a stdout relay's reports: payloads are objects, an exit is reported at most
   once, only as the last report, and exactly when the stream ended normally.
   */
  lemma StdoutShape(o: Oracle, evs: seq<ReadEvent>, code: Option<int>)
    ensures var sent := StdoutReports(o, evs, code);
            && (forall i :: 0 <= i < |sent| && sent[i].OutLine? ==> sent[i].data.Object?)
            && (forall i :: 0 <= i < |sent| && sent[i].Ended? ==> i == |sent| - 1)
            && (EndsNormally(evs) <==> exists i :: 0 <= i < |sent| && sent[i].Ended?)
  {
    var sent := StdoutReports(o, evs, code);
    var lines := Reports(o, NonBlank(o, Lines(evs)));
    assert forall i :: 0 <= i < |lines| ==> sent[i] == lines[i] && !lines[i].Ended?;
    if EndsNormally(evs) {
      assert sent[|sent| - 1].Ended?;
    }
  }

  // ---- the Rust loops ----

  method RustRelayStdout(o: Oracle, evs: seq<ReadEvent>) returns (sent: seq<Body>)
    ensures sent == StdoutReports(o, evs, None)
  {
    sent := [];
    var normalEof := false;
    var i := 0;
    while i < |evs|
      invariant 0 <= i <= |evs| && AllText(evs[..i]) && !normalEof
      invariant sent == StdoutReports(o, evs[..i], None)
    {
      StepsAddUp(o, evs[..i], evs[i]);
      assert evs[..i] + [evs[i]] == evs[..i + 1];
      if !evs[i].Text? {
        PrefixDecides(evs, i);
      }
      match evs[i] {
        case Text(text) =>
          var line := o.trim(text);
          if line != "" {
            match o.parse(line) {
              case Some(data) => sent := sent + [OutLine(if data.Object? then data else Object(map["raw" := data]))];
              case None => sent := sent + [TextLine(line)];
            }
          }
        case Eof =>
          normalEof := true;
          break;
        case Failed =>
          break;
      }
      i := i + 1;
    }
    assert i == |evs| ==> evs[..i] == evs;
    if normalEof {
      sent := sent + [Ended(None)];
    }
  }

  /** Nothing read after the stream has ended matters. */
  lemma {:induction false} PrefixDecides(evs: seq<ReadEvent>, i: nat)
    requires i < |evs| && AllText(evs[..i]) && !evs[i].Text?
    ensures Lines(evs) == Lines(evs[..i + 1])
    ensures EndsNormally(evs) == EndsNormally(evs[..i + 1])
  {
    if i > 0 {
      assert evs[0] == evs[..i][0];
      assert evs[1..][..i - 1] == evs[..i][1..];
      assert evs[1..][..i] == evs[..i + 1][1..];
      PrefixDecides(evs[1..], i - 1);
    }
  }

  method RustRelayStderr(o: Oracle, evs: seq<ReadEvent>) returns (sent: seq<Body>)
    ensures sent == StderrReports(o, evs)
  {
    sent := [];
    var i := 0;
    while i < |evs| && evs[i].Text?
      invariant 0 <= i <= |evs| && AllText(evs[..i])
      invariant sent == StderrReports(o, evs[..i])
    {
      StepsAddUp(o, evs[..i], evs[i]);
      assert evs[..i] + [evs[i]] == evs[..i + 1];
      var text := o.trim(evs[i].line);
      if text != "" {
        sent := sent + [TextLine(text)];
      }
      i := i + 1;
    }
    if i < |evs| {
      StepsAddUp(o, evs[..i], evs[i]);
      assert evs[..i] + [evs[i]] == evs[..i + 1];
      PrefixDecides(evs, i);
    } else {
      assert evs[..i] == evs;
    }
  }

  // ---- the Python loops ----

  /** What Python reports for a line: it parses before it looks whether the line is blank. */
  function PyLine(o: Oracle, text: string): seq<Body>
  {
    var raw := o.trim(text);
    match o.parse(raw)
    case Some(v) => [OutLine(Wrap(v))]
    case None => if raw == "" then [] else [TextLine(raw)]
  }

  function PyReports(o: Oracle, evs: seq<ReadEvent>, code: Option<int>): seq<Body>
  {
    Collect((text: string) => PyLine(o, text), Lines(evs)) + if EndsNormally(evs) then [Ended(code)] else []
  }

  /** What Python's stdout task reports on reading one event. */
  function PyStep(o: Oracle, ev: ReadEvent, code: Option<int>): seq<Body>
  {
    match ev
    case Text(text) => PyLine(o, text)
    case Eof => [Ended(code)]
    case Failed => []
  }

  lemma PyStepsAddUp(o: Oracle, evs: seq<ReadEvent>, ev: ReadEvent, code: Option<int>)
    requires AllText(evs)
    ensures PyReports(o, evs + [ev], code) == PyReports(o, evs, code) + PyStep(o, ev, code)
  {
    LinesLast(evs, ev);
    if ev.Text? {
      CollectLast((text: string) => PyLine(o, text), Lines(evs), ev.line);
    } else {
      assert Lines(evs) + [] == Lines(evs);
    }
  }

  method PyRelayStdout(o: Oracle, evs: seq<ReadEvent>, returncode: Option<int>) returns (sent: seq<Body>)
    ensures sent == PyReports(o, evs, returncode)
  {
    sent := [];
    var normalEof := false;
    var i := 0;
    while i < |evs|
      invariant 0 <= i <= |evs| && AllText(evs[..i]) && !normalEof
      invariant sent == PyReports(o, evs[..i], returncode)
    {
      PyStepsAddUp(o, evs[..i], evs[i], returncode);
      assert evs[..i] + [evs[i]] == evs[..i + 1];
      if !evs[i].Text? {
        PrefixDecides(evs, i);
      }
      if evs[i].Eof? {
        normalEof := true;
        break;
      }
      if evs[i].Failed? {
        break;
      }
      var raw := o.trim(evs[i].line);
      match o.parse(raw) {
        case None =>
          if raw != "" {
            sent := sent + [TextLine(raw)];
          }
        case Some(data) =>
          sent := sent + [OutLine(if data.Object? then data else Object(map["raw" := data]))];
      }
      i := i + 1;
    }
    assert i == |evs| ==> evs[..i] == evs;
    if normalEof {
      sent := sent + [Ended(returncode)];
    }
  }

  // ---- both loops agree ----

  /** How many lines Python reports and Rust skips. */
  function BlanksParsed(o: Oracle, lines: seq<string>): nat
  {
    if lines == [] then 0
    else
      BlanksParsed(o, lines[..|lines| - 1])
      + if o.trim(lines[|lines| - 1]) == "" && o.parse("").Some? then 1 else 0
  }

  lemma {:induction false} PyLinesAgree(o: Oracle, lines: seq<string>)
    ensures var py := Collect((text: string) => PyLine(o, text), lines);
            && |py| == |Reports(o, NonBlank(o, lines))| + BlanksParsed(o, lines)
            && (BlanksParsed(o, lines) == 0 ==> py == Reports(o, NonBlank(o, lines)))
  {
    if lines != [] {
      var init, last := lines[..|lines| - 1], lines[|lines| - 1];
      PyLinesAgree(o, init);
      CollectLast((text: string) => PyLine(o, text), init, last);
      assert init + [last] == lines;
      NonBlankLast(o, init, last);
      ReportsLast(o, NonBlank(o, init), o.trim(last));
    }
  }

  predicate SomeBlank(o: Oracle, lines: seq<string>) {
    exists i :: 0 <= i < |lines| && o.trim(lines[i]) == ""
  }

  lemma {:induction false} BlanksCounted(o: Oracle, lines: seq<string>)
    ensures BlanksParsed(o, lines) == 0 <==> o.parse("").None? || !SomeBlank(o, lines)
  {
    if lines != [] {
      var init := lines[..|lines| - 1];
      BlanksCounted(o, init);
      assert SomeBlank(o, init) ==> SomeBlank(o, lines) by {
        if SomeBlank(o, init) {
          var i :| 0 <= i < |init| && o.trim(init[i]) == "";
          assert lines[i] == init[i];
        }
      }
      if SomeBlank(o, lines) {
        var i :| 0 <= i < |lines| && o.trim(lines[i]) == "";
        assert i < |init| ==> init[i] == lines[i];
      }
    }
  }

  /**
   The two stdout relays report the same thing for every input exactly when the empty text is
   not a JSON document or no line is blank: Python parses a line before asking whether it is blank.
   */
  lemma RelaysAgree(o: Oracle, evs: seq<ReadEvent>, code: Option<int>)
    ensures PyReports(o, evs, code) == StdoutReports(o, evs, code)
            <==> o.parse("").None? || !SomeBlank(o, Lines(evs))
  {
    var lines := Lines(evs);
    PyLinesAgree(o, lines);
    BlanksCounted(o, lines);
    assert |PyReports(o, evs, code)| == |StdoutReports(o, evs, code)| + BlanksParsed(o, lines);
  }

  /** No JSON parser accepts the empty text, so the two relays report the same thing for every input. */
  lemma RelaysAgreeOnJson(o: Oracle, evs: seq<ReadEvent>, code: Option<int>)
    requires o.parse("").None?
    ensures PyReports(o, evs, code) == StdoutReports(o, evs, code)
  {
    RelaysAgree(o, evs, code);
  }
}
