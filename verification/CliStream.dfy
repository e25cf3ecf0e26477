/**
 The event stream of the command-line bridge: two producers and a closer around one bounded channel. What JSON
 decodes to is a parameter; the contents of the pipes, the process's exit and the interleaving are arbitrary.
 */
module CliStream {
  import opened Common
  import Strings

  const CAPACITY := 128

  datatype Event =
    | Done
    | TextDelta(text: string, name: string)
    | Failure(code: string)
    | OtherEvent(kind: string, payload: string)

  /** Events of a frame, or None when it does not decode. */
  type Decoder = string -> Option<seq<Event>>

  /** What a pipe gave, how the line scanner cut it, and whether reading it ended in an error. */
  datatype Pipe = Pipe(text: string, lines: seq<string>, broken: bool)

  datatype Format = JsonLines | SingleJson | PlainText | Unsupported

  // ----- what the producers send -----

  predicate NoDone(s: seq<Event>) { Done !in s }

  function LineEvents(lines: seq<string>, name: string): seq<Event> {
    if lines == [] then []
    else (if lines[0] == "" then [] else [TextDelta(lines[0] + "\n", name)]) + LineEvents(lines[1..], name)
  }

  function Broken(p: Pipe, code: string): seq<Event> { if p.broken then [Failure(code)] else [] }

  function TextEvents(p: Pipe, name: string): seq<Event> {
    LineEvents(p.lines, name) + Broken(p, name + "_scan_error")
  }

  /** emitEvent: an event passes unless it is a Done. */
  function Emitted(s: seq<Event>): (r: seq<Event>)
    ensures NoDone(r)
  {
    if s == [] then [] else (if s[0].Done? then [] else [s[0]]) + Emitted(s[1..])
  }

  function FrameEvents(decode: Decoder, frame: string, code: string): seq<Event> {
    match decode(frame)
    case Some(events) => Emitted(events)
    case None => [Failure(code)]
  }

  function JsonLineEvent(decode: Decoder, raw: string): (r: seq<Event>)
    ensures NoDone(r)
  {
    var line := Strings.Trim(raw);
    if line == "" then [] else FrameEvents(decode, line, "jsonl_decode_error")
  }

  function JsonLineEvents(decode: Decoder, lines: seq<string>): seq<Event> {
    if lines == [] then [] else JsonLineEvent(decode, lines[0]) + JsonLineEvents(decode, lines[1..])
  }

  function StdoutEvents(decode: Decoder, format: Format, p: Pipe): seq<Event> {
    match format
    case JsonLines => JsonLineEvents(decode, p.lines) + Broken(p, "jsonl_scan_error")
    case SingleJson =>
      if p.broken then [Failure("json_read_error")] else FrameEvents(decode, p.text, "json_decode_error")
    case PlainText => TextEvents(p, "stdout")
    case Unsupported => [Failure("unsupported_stdout_format")]
  }

  lemma {:induction false} LineEventsNoDone(lines: seq<string>, name: string)
    ensures NoDone(LineEvents(lines, name))
  {
    if lines != [] { LineEventsNoDone(lines[1..], name); }
  }

  lemma {:induction false} JsonLineEventsNoDone(decode: Decoder, lines: seq<string>)
    ensures NoDone(JsonLineEvents(decode, lines))
  {
    if lines != [] { JsonLineEventsNoDone(decode, lines[1..]); }
  }

  /** Whatever the process prints, even done markers, neither producer's scan sends a Done. */
  lemma ScansSendNoDone(decode: Decoder, format: Format, p: Pipe, name: string)
    ensures NoDone(StdoutEvents(decode, format, p)) && NoDone(TextEvents(p, name))
  {
    LineEventsNoDone(p.lines, name);
    LineEventsNoDone(p.lines, "stdout");
    JsonLineEventsNoDone(decode, p.lines);
  }

  // ----- what is sent, piece by piece -----

  lemma LineFirst(s: seq<string>, name: string)
    requires s != []
    ensures LineEvents(s, name) == (if s[0] == "" then [] else [TextDelta(s[0] + "\n", name)]) + LineEvents(s[1..], name)
  {}

  /** Each line that is not empty is one event with its line end, in order; the empty ones are none. */
  lemma {:induction false} TextLines(a: seq<string>, b: seq<string>, name: string)
    ensures LineEvents(a + b, name) == LineEvents(a, name) + LineEvents(b, name)
    ensures a != [] ==> LineEvents(a, name) == (if a[0] == "" then [] else [TextDelta(a[0] + "\n", name)]) + LineEvents(a[1..], name)
  {
    if a == [] {
      assert a + b == b;
      assert LineEvents(a, name) == [];
    } else {
      LineFirst(a, name);
      LineFirst(a + b, name);
      hide LineEvents;
      TextLines(a[1..], b, name);
      assert (a + b)[1..] == a[1..] + b;
    }
  }

  lemma FirstPasses(s: seq<Event>)
    requires s != []
    ensures Emitted(s) == (if s[0].Done? then [] else [s[0]]) + Emitted(s[1..])
  {}

  /** All events of a frame pass, in order, but its done markers. */
  lemma {:induction false} FramePasses(a: seq<Event>, b: seq<Event>)
    ensures Emitted(a + b) == Emitted(a) + Emitted(b)
  {
    if a == [] {
      assert a + b == b;
      assert Emitted(a) == [];
    } else {
      FirstPasses(a);
      FirstPasses(a + b);
      hide Emitted;
      FramePasses(a[1..], b);
      assert (a + b)[1..] == a[1..] + b;
    }
  }

  lemma EventPasses(e: Event)
    ensures Emitted([]) == [] && Emitted([e]) == if e == Done then [] else [e]
  {
    assert Emitted([e][1..]) == [];
  }

  /** Each line that is not blank is one frame: its events without done markers, or one failure. */
  lemma {:induction false} JsonLinesPass(decode: Decoder, a: seq<string>, b: seq<string>)
    ensures JsonLineEvents(decode, a + b) == JsonLineEvents(decode, a) + JsonLineEvents(decode, b)
  {
    hide JsonLineEvent;
    if a == [] {
      assert a + b == b;
    } else {
      JsonLinesPass(decode, a[1..], b);
      assert (a + b)[1..] == a[1..] + b;
      var first := JsonLineEvent(decode, a[0]);
      assert JsonLineEvents(decode, a + b) == first + (JsonLineEvents(decode, a[1..]) + JsonLineEvents(decode, b));
    }
  }

  lemma OneLine(decode: Decoder, line: string)
    ensures JsonLineEvents(decode, [line]) == JsonLineEvent(decode, line)
    ensures JsonLineEvent(decode, line) ==
      if Strings.Blank(line) then []
      else match decode(Strings.Trim(line))
           case Some(events) => Emitted(events)
           case None => [Failure("jsonl_decode_error")]
  {}

  /** What each format makes of a pipe: its pieces, and a failure when reading broke off. */
  lemma PipeEvents(decode: Decoder, p: Pipe, name: string)
    ensures StdoutEvents(decode, JsonLines, p) == JsonLineEvents(decode, p.lines) + if p.broken then [Failure("jsonl_scan_error")] else []
    ensures StdoutEvents(decode, SingleJson, p) ==
      if p.broken then [Failure("json_read_error")]
      else match decode(p.text)
           case Some(events) => Emitted(events)
           case None => [Failure("json_decode_error")]
    ensures StdoutEvents(decode, PlainText, p) == LineEvents(p.lines, "stdout") + if p.broken then [Failure("stdout_scan_error")] else []
    ensures StdoutEvents(decode, Unsupported, p) == [Failure("unsupported_stdout_format")]
    ensures TextEvents(p, name) == LineEvents(p.lines, name) + if p.broken then [Failure(name + "_scan_error")] else []
  {
    assert "stdout" + "_scan_error" == "stdout_scan_error";
  }

  /** A send waits exactly while a hundred and twenty-eight events are in the channel. */
  lemma SendsWait(s: State)
    ensures s.err.ErrScanning? && s.err.todo != [] ==> (Enabled(s, SendErr) <==> |s.queue| < 128)
    ensures !s.out.OutGone? && s.out.todo != [] ==> (Enabled(s, SendOut) <==> |s.queue| < 128)
    ensures Enabled(s, Receive) <==> s.queue != []
  {}

  /** scanTextLines: sent is what went into the channel, in order. */
  method ScanTextLines(p: Pipe, name: string) returns (sent: seq<Event>)
    ensures sent == TextEvents(p, name) && NoDone(sent)
  {
    sent := [];
    for i := 0 to |p.lines|
      invariant sent + LineEvents(p.lines[i..], name) == LineEvents(p.lines, name)
    {
      assert p.lines[i..][1..] == p.lines[i + 1..];
      if p.lines[i] != "" { sent := sent + [TextDelta(p.lines[i] + "\n", name)]; }
    }
    assert sent == LineEvents(p.lines, name);
    if p.broken { sent := sent + [Failure(name + "_scan_error")]; }
    LineEventsNoDone(p.lines, name);
  }

  /** emitEvent for each event of a frame. */
  method EmitAll(events: seq<Event>, before: seq<Event>) returns (sent: seq<Event>)
    ensures sent == before + Emitted(events)
  {
    sent := before;
    for j := 0 to |events|
      invariant sent + Emitted(events[j..]) == before + Emitted(events)
    {
      assert events[j..][1..] == events[j + 1..];
      if !events[j].Done? { sent := sent + [events[j]]; }
    }
  }

  method ParseJsonLine(decode: Decoder, raw: string, before: seq<Event>) returns (sent: seq<Event>)
    ensures sent == before + JsonLineEvent(decode, raw)
  {
    sent := before;
    var line := Strings.Trim(raw);
    if line != "" {
      match decode(line)
      case None => sent := sent + [Failure("jsonl_decode_error")];
      case Some(events) => sent := EmitAll(events, sent);
    }
  }

  /** parseJSONL. */
  method ParseJsonLines(decode: Decoder, p: Pipe) returns (sent: seq<Event>)
    ensures sent == StdoutEvents(decode, JsonLines, p) && NoDone(sent)
  {
    hide JsonLineEvent;
    sent := [];
    for i := 0 to |p.lines|
      invariant sent + JsonLineEvents(decode, p.lines[i..]) == JsonLineEvents(decode, p.lines)
    {
      assert p.lines[i..][1..] == p.lines[i + 1..];
      sent := ParseJsonLine(decode, p.lines[i], sent);
    }
    assert sent == JsonLineEvents(decode, p.lines);
    if p.broken { sent := sent + [Failure("jsonl_scan_error")]; }
    JsonLineEventsNoDone(decode, p.lines);
  }

  /** parseSingleJSON. */
  method ParseSingleJson(decode: Decoder, p: Pipe) returns (sent: seq<Event>)
    ensures sent == StdoutEvents(decode, SingleJson, p) && NoDone(sent)
  {
    if p.broken { return [Failure("json_read_error")]; }
    match decode(p.text)
    case None => sent := [Failure("json_decode_error")];
    case Some(events) => sent := EmitAll(events, []);
  }

  // ----- the goroutines -----

  datatype Source = Stdout | Stderr

  datatype Sent = Sent(source: Source, event: Event)

  datatype ErrStage = ErrScanning(todo: seq<Event>) | ErrScanned | ErrGone

  datatype OutStage = OutScanning(todo: seq<Event>) | OutReporting(todo: seq<Event>) | OutGone

  datatype State = State(err: ErrStage, out: OutStage, queue: seq<Sent>, closed: bool, delivered: seq<Sent>)

  datatype Step =
    | SendErr
    | CloseStderrDone
    | FinishErr
    | SendOut
    | WaitProcess(failed: bool)
    | FinishOut
    | CloseChannel
    | Receive

  function Initial(stderr: seq<Event>, stdout: seq<Event>): State {
    State(ErrScanning(stderr), OutScanning(stdout), [], false, [])
  }

  predicate Room(s: State) { |s.queue| < CAPACITY }

  /** A send waits for room; the stdout producer waits for stderrDone before it waits for the process. */
  predicate Enabled(s: State, t: Step) {
    match t
    case SendErr => s.err.ErrScanning? && s.err.todo != [] && Room(s)
    case CloseStderrDone => s.err.ErrScanning? && s.err.todo == []
    case FinishErr => s.err.ErrScanned?
    case SendOut => !s.out.OutGone? && s.out.todo != [] && Room(s)
    case WaitProcess(_) => s.out.OutScanning? && s.out.todo == [] && !s.err.ErrScanning?
    case FinishOut => s.out.OutReporting? && s.out.todo == []
    case CloseChannel => s.err.ErrGone? && s.out.OutGone? && !s.closed
    case Receive => s.queue != []
  }

  function Ending(failed: bool): seq<Event> {
    if failed then [Failure("process_exit_error"), Done] else [Done]
  }

  function Apply(s: State, t: Step): State
    requires Enabled(s, t)
  {
    match t
    case SendErr => s.(queue := s.queue + [Sent(Stderr, s.err.todo[0])], err := ErrScanning(s.err.todo[1..]))
    case CloseStderrDone => s.(err := ErrScanned)
    case FinishErr => s.(err := ErrGone)
    case SendOut =>
      s.(queue := s.queue + [Sent(Stdout, s.out.todo[0])],
         out := if s.out.OutScanning? then OutScanning(s.out.todo[1..]) else OutReporting(s.out.todo[1..]))
    case WaitProcess(failed) => s.(out := OutReporting(Ending(failed)))
    case FinishOut => s.(out := OutGone)
    case CloseChannel => s.(closed := true)
    case Receive => s.(delivered := s.delivered + [s.queue[0]], queue := s.queue[1..])
  }

  /** Everything ever put into the channel. */
  function AllSent(s: State): seq<Sent> { s.delivered + s.queue }

  function From(source: Source, sent: seq<Sent>): seq<Event> {
    if sent == [] then []
    else From(source, sent[..|sent| - 1]) + (if sent[|sent| - 1].source == source then [sent[|sent| - 1].event] else [])
  }

  lemma FromGrows(source: Source, sent: seq<Sent>, x: Sent)
    ensures From(source, sent + [x]) == From(source, sent) + (if x.source == source then [x.event] else [])
  {
    assert (sent + [x])[..|sent|] == sent;
  }

  predicate ReportedAll(out: OutStage) { out.OutGone? || (out.OutReporting? && out.todo == []) }

  ghost predicate ErrInv(s: State, stderr: seq<Event>) {
    From(Stderr, AllSent(s)) + (if s.err.ErrScanning? then s.err.todo else []) == stderr
  }

  ghost predicate OutInv(s: State, stdout: seq<Event>, failed: bool) {
    From(Stdout, AllSent(s)) + (if s.out.OutGone? then [] else s.out.todo) == if s.out.OutScanning? then stdout else stdout + Ending(failed)
  }

  ghost predicate StageInv(s: State) {
    && |s.queue| <= CAPACITY
    && (!s.out.OutScanning? ==> !s.err.ErrScanning?)
    && (s.closed ==> s.err.ErrGone? && s.out.OutGone?)
    && (s.err.ErrScanning? ==> NoDone(s.err.todo))
    && (s.out.OutScanning? ==> NoDone(s.out.todo))
    && (s.out.OutReporting? ==> s.out.todo in [[], Ending(false), Ending(true)])
  }

  /** Done has been sent exactly when the stdout producer has reported all, and nothing was sent after it. */
  ghost predicate DoneInv(s: State) {
    var sent := AllSent(s);
    && (forall i :: 0 <= i < |sent| && sent[i].event == Done ==> i == |sent| - 1 && ReportedAll(s.out))
    && (ReportedAll(s.out) ==> sent != [] && sent[|sent| - 1] == Sent(Stdout, Done))
  }

  ghost predicate Inv(s: State, stderr: seq<Event>, stdout: seq<Event>) {
    StageInv(s) && DoneInv(s) && ErrInv(s, stderr) && exists failed :: OutInv(s, stdout, failed)
  }

  /** Sending is what AllSent grows by; receiving leaves it alone. */
  lemma SentGrows(s: State, t: Step)
    requires Enabled(s, t)
    ensures AllSent(Apply(s, t)) ==
      match t
      case SendErr => AllSent(s) + [Sent(Stderr, s.err.todo[0])]
      case SendOut => AllSent(s) + [Sent(Stdout, s.out.todo[0])]
      case _ => AllSent(s)
  {
    if t.Receive? { assert s.queue == [s.queue[0]] + s.queue[1..]; }
  }

  lemma StageKept(s: State, t: Step)
    requires StageInv(s) && Enabled(s, t)
    ensures StageInv(Apply(s, t))
  {
    if t.SendOut? && s.out.OutReporting? {
      assert s.out.todo[1..] in [[], Ending(false), Ending(true)] by {
        assert Ending(true)[1..] == Ending(false) && Ending(false)[1..] == [];
      }
    }
  }

  lemma DoneKept(s: State, t: Step)
    requires StageInv(s) && DoneInv(s) && Enabled(s, t)
    ensures DoneInv(Apply(s, t))
  {
    SentGrows(s, t);
    var sent, sent' := AllSent(s), AllSent(Apply(s, t));
    if t.SendOut? && s.out.OutReporting? {
      assert Ending(true)[1..] == Ending(false) && Ending(false)[1..] == [];
    }
    assert forall i :: 0 <= i < |sent| ==> sent'[i] == sent[i];
  }

  lemma ErrKept(s: State, t: Step, stderr: seq<Event>)
    requires ErrInv(s, stderr) && Enabled(s, t)
    ensures ErrInv(Apply(s, t), stderr)
  {
    hide From, AllSent;
    SentGrows(s, t);
    match t
    case SendErr =>
      FromGrows(Stderr, AllSent(s), Sent(Stderr, s.err.todo[0]));
      Shift(From(Stderr, AllSent(s)), s.err.todo);
    case SendOut => FromGrows(Stderr, AllSent(s), Sent(Stdout, s.out.todo[0]));
    case _ =>
  }

  lemma OutKept(s: State, t: Step, stdout: seq<Event>, failed: bool)
    requires OutInv(s, stdout, failed) && Enabled(s, t)
    ensures OutInv(Apply(s, t), stdout, if t.WaitProcess? then t.failed else failed)
  {
    hide From, AllSent, Ending;
    SentGrows(s, t);
    match t
    case SendErr => FromGrows(Stdout, AllSent(s), Sent(Stderr, s.err.todo[0]));
    case SendOut =>
      FromGrows(Stdout, AllSent(s), Sent(Stdout, s.out.todo[0]));
      Shift(From(Stdout, AllSent(s)), s.out.todo);
    case _ =>
  }

  lemma Shift(a: seq<Event>, todo: seq<Event>)
    requires todo != []
    ensures (a + [todo[0]]) + todo[1..] == a + todo
  {}

  lemma StepKeeps(s: State, t: Step, stderr: seq<Event>, stdout: seq<Event>)
    requires Inv(s, stderr, stdout) && Enabled(s, t)
    ensures Inv(Apply(s, t), stderr, stdout)
  {
    hide StageInv, DoneInv, ErrInv, OutInv, Apply;
    StageKept(s, t);
    DoneKept(s, t);
    ErrKept(s, t, stderr);
    var failed :| OutInv(s, stdout, failed);
    OutKept(s, t, stdout, failed);
  }

  ghost predicate Runs(stderr: seq<Event>, stdout: seq<Event>, states: seq<State>, steps: seq<Step>) {
    && |states| == |steps| + 1 && states[0] == Initial(stderr, stdout)
    && forall i :: 0 <= i < |steps| ==> Enabled(states[i], steps[i]) && states[i + 1] == Apply(states[i], steps[i])
  }

  /** A run of producers that send no Done of their own, as ScansSendNoDone gives for any pipe. */
  ghost predicate IsRun(stderr: seq<Event>, stdout: seq<Event>, states: seq<State>, steps: seq<Step>) {
    NoDone(stderr) && NoDone(stdout) && Runs(stderr, stdout, states, steps)
  }

  lemma {:induction false} RunInv(stderr: seq<Event>, stdout: seq<Event>, states: seq<State>, steps: seq<Step>, n: nat)
    requires IsRun(stderr, stdout, states, steps) && n < |states|
    ensures Inv(states[n], stderr, stdout)
  {
    hide Inv;
    if n > 0 {
      RunInv(stderr, stdout, states, steps, n - 1);
      StepKeeps(states[n - 1], steps[n - 1], stderr, stdout);
    } else {
      InitialInv(stderr, stdout);
    }
  }

  lemma InitialInv(stderr: seq<Event>, stdout: seq<Event>)
    requires NoDone(stderr) && NoDone(stdout)
    ensures Inv(Initial(stderr, stdout), stderr, stdout)
  {
    assert OutInv(Initial(stderr, stdout), stdout, false);
  }

  /** No step ever sends on the closed channel. */
  lemma NothingAfterClose(stderr: seq<Event>, stdout: seq<Event>, states: seq<State>, steps: seq<Step>, n: nat)
    requires IsRun(stderr, stdout, states, steps) && n < |steps| && states[n].closed
    ensures steps[n] == Receive && AllSent(states[n + 1]) == AllSent(states[n])
  {
    RunInv(stderr, stdout, states, steps, n);
    SentGrows(states[n], steps[n]);
  }

  /**
   What a consumer has seen when the channel is closed and drained: exactly one Done and that last, and from
   each producer all it had to say, in its order.
   */
  lemma StreamEndsOnce(stderr: seq<Event>, stdout: seq<Event>, states: seq<State>, steps: seq<Step>, n: nat) returns (failed: bool)
    requires IsRun(stderr, stdout, states, steps) && n < |states| && states[n].closed && states[n].queue == []
    ensures var seen := states[n].delivered;
      && seen != []
      && (forall i :: 0 <= i < |seen| ==> (seen[i].event == Done <==> i == |seen| - 1))
      && From(Stderr, seen) == stderr && From(Stdout, seen) == stdout + (if failed then [Failure("process_exit_error"), Done] else [Done])
  {
    RunInv(stderr, stdout, states, steps, n);
    var s := states[n];
    assert AllSent(s) == s.delivered;
    failed :| OutInv(s, stdout, failed);
    assert stderr + [] == stderr;
    assert From(Stderr, s.delivered) + [] == From(Stderr, s.delivered);
    assert From(Stdout, s.delivered) + [] == From(Stdout, s.delivered);
  }

  /**
   The whole of Invoke: whatever the process writes to its two pipes, whatever frames decode to, and however the
   goroutines interleave, the stream ends with its one Done after all that both scans had to say.
   */
  lemma AnyPipesEndOnce(decode: Decoder, format: Format, stdout: Pipe, stderr: Pipe, states: seq<State>, steps: seq<Step>, n: nat)
    returns (failed: bool)
    requires Runs(TextEvents(stderr, "stderr"), StdoutEvents(decode, format, stdout), states, steps) && n < |states|
    requires states[n].closed && states[n].queue == []
    ensures var seen := states[n].delivered;
      && seen != []
      && (forall i :: 0 <= i < |seen| ==> (seen[i].event == Done <==> i == |seen| - 1))
      && From(Stderr, seen) == TextEvents(stderr, "stderr")
      && From(Stdout, seen) == StdoutEvents(decode, format, stdout) + (if failed then [Failure("process_exit_error"), Done] else [Done])
  {
    hide StdoutEvents, TextEvents, Runs;
    ScansSendNoDone(decode, format, stdout, "stdout");
    ScansSendNoDone(decode, format, stderr, "stderr");
    failed := StreamEndsOnce(TextEvents(stderr, "stderr"), StdoutEvents(decode, format, stdout), states, steps, n);
  }

  /** At any moment what was delivered is a prefix of what each producer sends, in its order. */
  lemma OrderKept(stderr: seq<Event>, stdout: seq<Event>, states: seq<State>, steps: seq<Step>, n: nat)
    requires IsRun(stderr, stdout, states, steps) && n < |states|
    ensures From(Stderr, AllSent(states[n])) <= stderr
    ensures From(Stdout, AllSent(states[n])) <= stdout + Ending(false) || From(Stdout, AllSent(states[n])) <= stdout + Ending(true)
  {
    RunInv(stderr, stdout, states, steps, n);
    var s := states[n];
    var failed :| OutInv(s, stdout, failed);
    var got := From(Stdout, AllSent(s));
    if s.out.OutScanning? {
      assert got + s.out.todo + Ending(failed) == stdout + Ending(failed);
      assert got <= stdout + Ending(failed);
    }
  }

  // ----- the stream ends -----

  function ErrWeight(e: ErrStage): nat {
    match e
    case ErrScanning(todo) => 2 * |todo| + 2
    case ErrScanned => 1
    case ErrGone => 0
  }

  function OutWeight(o: OutStage): nat {
    match o
    case OutScanning(todo) => 2 * |todo| + 6
    case OutReporting(todo) => 2 * |todo| + 1
    case OutGone => 0
  }

  function Weight(s: State): nat {
    ErrWeight(s.err) + OutWeight(s.out) + |s.queue| + if s.closed then 0 else 1
  }

  /** Every step uses something up, and until the channel is closed and drained some step can be taken. */
  lemma AlwaysMoves(s: State, stderr: seq<Event>, stdout: seq<Event>) returns (t: Step)
    requires Inv(s, stderr, stdout) && !(s.closed && s.queue == [])
    ensures Enabled(s, t)
    ensures forall u :: Enabled(s, u) ==> Weight(Apply(s, u)) < Weight(s)
  {
    t := if s.queue != [] then Receive
         else if s.err.ErrScanning? then (if s.err.todo == [] then CloseStderrDone else SendErr)
         else if s.err.ErrScanned? then FinishErr
         else if s.out.OutGone? then CloseChannel
         else if s.out.todo != [] then SendOut
         else if s.out.OutScanning? then WaitProcess(false)
         else FinishOut;
    assert |Ending(true)| == 2 && |Ending(false)| == 1;
  }
}
