/** Storing a conversation and filling one from a stored record. */
module Records {
  import opened Common
  import opened Messages
  import opened Rounds
  import Validate

  /** A field of a message: missing, null, text, or some other value with its truth and its printed form. */
  datatype Value = Absent | Null | Text(s: string) | Odd(truthy: bool, first: char, rest: string)

  datatype RawCall = RawCall(id: Value, kind: Value, name: Value, arguments: Value)

  datatype Raw = Raw(role: Value, content: Value, calls: seq<RawCall>, toolCallId: Value, reasoning: Value)

  /** A message in memory: a dictionary, or a provider object that can or cannot be dumped. */
  datatype Live = Dict(raw: Raw) | Sdk(raw: Raw, dumps: bool)

  /** An entry of a stored list. */
  datatype Entry = NoObject | Object(raw: Raw)

  predicate Truthy(v: Value) {
    (v.Text? && v.s != "") || (v.Odd? && v.truthy)
  }

  function Str(v: Value): string {
    match v
    case Absent => "None"
    case Null => "None"
    case Text(s) => s
    case Odd(_, first, rest) => [first] + rest
  }

  function OrElse(v: Value, other: string): string {
    if Truthy(v) then Str(v) else other
  }

  function Optional(v: Value): Value {
    if Truthy(v) then Text(Str(v)) else Absent
  }

  // --------------------------------------------------------------------- one message

  function NormalCall(c: RawCall): RawCall {
    RawCall(Text(OrElse(c.id, "")), Text(OrElse(c.kind, "function")), Text(OrElse(c.name, "")),
            Text(OrElse(c.arguments, "")))
  }

  function NormalCalls(calls: seq<RawCall>): seq<RawCall> {
    seq(|calls|, i requires 0 <= i < |calls| => NormalCall(calls[i]))
  }

  /** What there is to store; an object that cannot be dumped yields its role and content only. */
  function Source(m: Live): Raw {
    match m
    case Dict(raw) => raw
    case Sdk(raw, dumps) =>
      if dumps then raw
      else Raw(if raw.role == Absent then Text("assistant") else raw.role,
               if Truthy(raw.content) then raw.content else Text(""), [], Absent, Absent)
  }

  function MessageToJson(m: Live): Raw {
    var r := Source(m);
    Raw(Text(OrElse(r.role, "assistant")),
        Text(if r.content == Absent || r.content == Null then "" else Str(r.content)),
        NormalCalls(r.calls), Optional(r.toolCallId), Optional(r.reasoning))
  }

  const ROLES := {"system", "user", "assistant", "tool"}

  function JsonToMessage(e: Entry): Option<Raw> {
    if e.NoObject? then None
    else if !(e.raw.role.Text? && e.raw.role.s in ROLES) then None
    else
      var m := MessageToJson(Dict(e.raw));
      if m.role == Text("tool") && !Truthy(m.toolCallId) then None else Some(m)
  }

  lemma NormalIsFixed(m: Live)
    ensures MessageToJson(Dict(MessageToJson(m))) == MessageToJson(m)
  {
    var n := MessageToJson(m);
    assert NormalCalls(n.calls) == n.calls;
  }

  /** The condition under which a normal form survives being read back. */
  predicate Storable(n: Raw) {
    && n.role.Text? && n.role.s in ROLES
    && (n.role.s == "tool" ==> Truthy(n.toolCallId))
  }

  /** Reading inverts writing exactly on the four roles, with an id on tool results. */
  lemma ReadInvertsWriteExactly(m: Live)
    ensures var n := MessageToJson(m);
            JsonToMessage(Object(n)) == if Storable(n) then Some(n) else None
  {
    NormalIsFixed(m);
  }

  // -------------------------------------------------- the history the model sees

  function RoleOf(v: Value): Role {
    if v == Text("system") then System
    else if v == Text("user") then User
    else if v == Text("assistant") then Assistant
    else if v == Text("tool") then Tool
    else Other(Str(v))
  }

  function CallOf(c: RawCall): ToolCall {
    ToolCall(OrElse(c.id, ""), OrElse(c.kind, ""), OrElse(c.name, ""), OrElse(c.arguments, ""))
  }

  function View(m: Live): Message {
    Message(RoleOf(m.raw.role), OrElse(m.raw.content, ""),
            seq(|m.raw.calls|, i requires 0 <= i < |m.raw.calls| => CallOf(m.raw.calls[i])),
            OrElse(m.raw.toolCallId, ""), OrElse(m.raw.reasoning, ""), m.Sdk?)
  }

  function Views(ms: seq<Live>): (h: History)
    ensures |h| == |ms|
  {
    seq(|ms|, i requires 0 <= i < |ms| => View(ms[i]))
  }

  function Dicts(ns: seq<Raw>): (ms: seq<Live>)
    ensures |ms| == |ns|
  {
    seq(|ns|, i requires 0 <= i < |ns| => Dict(ns[i]))
  }

  function NormalForms(ms: seq<Live>): (ns: seq<Raw>)
    ensures |ns| == |ms|
  {
    seq(|ms|, i requires 0 <= i < |ms| => MessageToJson(ms[i]))
  }

  // ------------------------------------------------------------------------ records

  datatype Counters = Counters(prompt: int, completion: int, cached: int, reasoning: int, lastPrompt: int,
                               roundMax: int, roundPrompt: int, roundCached: int, roundReasoning: int,
                               roundsSinceTime: int)

  datatype Record = Record(messages: seq<Entry>, queue: seq<Entry>, counters: Counters,
                           lastTimeRead: Option<real>, lastMessageAt: Option<real>)

  function Entries(ns: seq<Raw>): (es: seq<Entry>)
    ensures |es| == |ns|
  {
    seq(|ns|, i requires 0 <= i < |ns| => Object(ns[i]))
  }

  predicate MayQueue(n: Raw) {
    n.role == Text("system") || n.role == Text("user")
  }

  /** The values present among the first n options, in order. */
  function Somes<T>(os: seq<Option<T>>, n: nat): seq<T>
    requires n <= |os|
  {
    if n == 0 then [] else Somes(os, n - 1) + if os[n - 1].Some? then [os[n - 1].value] else []
  }

  /** One entry read for the history, or for the queue, which holds system and user messages only. */
  function ReadOne(e: Entry, queue: bool): Option<Raw> {
    var m := JsonToMessage(e);
    if m.Some? && (queue ==> MayQueue(m.value)) then m else None
  }

  function ReadEach(es: seq<Entry>, queue: bool): (os: seq<Option<Raw>>)
    ensures |os| == |es|
  {
    seq(|es|, i requires 0 <= i < |es| => ReadOne(es[i], queue))
  }

  function Readable(es: seq<Entry>, queue: bool): seq<Raw> {
    Somes(ReadEach(es, queue), |es|)
  }

  function AtLeastZero(n: int): int {
    if n < 0 then 0 else n
  }

  function Checked(c: Counters): Counters {
    Counters(AtLeastZero(c.prompt), AtLeastZero(c.completion), AtLeastZero(c.cached), AtLeastZero(c.reasoning),
             AtLeastZero(c.lastPrompt), AtLeastZero(c.roundMax), AtLeastZero(c.roundPrompt),
             AtLeastZero(c.roundCached), AtLeastZero(c.roundReasoning), AtLeastZero(c.roundsSinceTime))
  }

  /** A moment more than a minute ahead of the clock is not believed. */
  function Believed(at: Option<real>, now: real): Option<real> {
    if at.Some? && at.value > now + 60.0 then None else at
  }

  // ------------------------------------------------------------------- in place

  class Conversation {
    var messages: seq<Live>
    var queue: seq<Live>
    var counters: Counters
    var lastTimeRead: Option<real>
    var lastMessageAt: Option<real>
    var version: nat

    constructor ()
      ensures messages == [] && queue == [] && counters == Counters(0, 0, 0, 0, 0, 0, 0, 0, 0, 0)
      ensures lastTimeRead == None && lastMessageAt == None && version == 0
    {
      messages, queue, counters := [], [], Counters(0, 0, 0, 0, 0, 0, 0, 0, 0, 0);
      lastTimeRead, lastMessageAt, version := None, None, 0;
    }

    function Stored(): Record
      reads this
    {
      Record(Entries(NormalForms(messages)), Entries(NormalForms(queue)), counters, lastTimeRead, lastMessageAt)
    }

    method ToRecord() returns (record: Record)
      ensures record == Stored()
    {
      var stored, waiting := [], [];
      var i := 0;
      while i < |messages|
        invariant 0 <= i <= |messages| && |stored| == i
        invariant forall k | 0 <= k < i :: stored[k] == Object(MessageToJson(messages[k]))
      {
        stored := stored + [Object(MessageToJson(messages[i]))];
        i := i + 1;
      }
      i := 0;
      while i < |queue|
        invariant 0 <= i <= |queue| && |waiting| == i
        invariant forall k | 0 <= k < i :: waiting[k] == Object(MessageToJson(queue[k]))
      {
        waiting := waiting + [Object(MessageToJson(queue[i]))];
        i := i + 1;
      }
      assert stored == Entries(NormalForms(messages)) && waiting == Entries(NormalForms(queue));
      record := Record(stored, waiting, counters, lastTimeRead, lastMessageAt);
    }

    method ReadAll(es: seq<Entry>, toQueue: bool) returns (ns: seq<Raw>)
      ensures ns == Readable(es, toQueue)
    {
      ns := [];
      var i := 0;
      while i < |es|
        invariant 0 <= i <= |es| && ns == Somes(ReadEach(es, toQueue), i)
      {
        var m := ReadOne(es[i], toQueue);
        if m.Some? {
          ns := ns + [m.value];
        }
        i := i + 1;
      }
    }

    /** Returns how many messages were kept. */
    method Restore(record: Record, now: real) returns (kept: nat)
      modifies this
      ensures messages == Repaired(Readable(record.messages, false))
      ensures queue == Dicts(Readable(record.queue, true))
      ensures counters == Checked(record.counters)
      ensures lastTimeRead == Believed(record.lastTimeRead, now)
      ensures lastMessageAt == Believed(record.lastMessageAt, now)
      ensures kept == |messages| && version > old(version)
    {
      var read := ReadAll(record.messages, false);
      var waiting := ReadAll(record.queue, true);
      messages, queue := Dicts(read), Dicts(waiting);
      version := version + 1;
      counters := Checked(record.counters);
      lastTimeRead, lastMessageAt := Believed(record.lastTimeRead, now), Believed(record.lastMessageAt, now);
      ValidateSequence(read);
      kept := |messages|;
    }

    method ValidateSequence(ghost read: seq<Raw>)
      requires messages == Dicts(read)
      modifies `messages, `version
      ensures messages == Repaired(read) && version >= old(version)
    {
      var cleaned := Validate.CleanSequence(Views(messages));
      if |cleaned| != |messages| {
        messages := Unviews(cleaned);
        version := version + 1;
      }
    }
  }

  /** The dictionary a normal form's view came from. */
  function Unview(m: Message): Live {
    Dict(Raw(Text(match m.role
                  case System => "system"
                  case User => "user"
                  case Assistant => "assistant"
                  case Tool => "tool"
                  case Other(name) => name),
             Text(m.content),
             seq(|m.calls|, i requires 0 <= i < |m.calls| =>
               RawCall(Text(m.calls[i].id), Text(m.calls[i].kind), Text(m.calls[i].name), Text(m.calls[i].arguments))),
             if m.answers == "" then Absent else Text(m.answers),
             if m.reasoning == "" then Absent else Text(m.reasoning)))
  }

  function Unviews(h: History): seq<Live> {
    seq(|h|, i requires 0 <= i < |h| => Unview(h[i]))
  }

  /** What the sequence check leaves of freshly read messages. */
  function Repaired(ns: seq<Raw>): seq<Live> {
    var h := Views(Dicts(ns));
    var cleaned := Validate.Validated(h);
    if |cleaned| == |h| then Dicts(ns) else Unviews(cleaned)
  }

  // -------------------------------------------------------------------- round trips

  lemma {:induction false} SomesExactly<T>(os: seq<Option<T>>, n: nat, all: seq<T>)
    requires n <= |os| && |all| == |os|
    requires forall i | 0 <= i < n && os[i].Some? :: os[i].value == all[i]
    ensures |Somes(os, n)| <= n
    ensures |Somes(os, n)| == n <==> forall i | 0 <= i < n :: os[i].Some?
    ensures |Somes(os, n)| == n ==> Somes(os, n) == all[..n]
  {
    if n > 0 {
      SomesExactly(os, n - 1, all);
    }
  }

  predicate Comes(n: Raw, queue: bool) {
    Storable(n) && (queue ==> MayQueue(n))
  }

  /** Reading back stored messages gives all of them exactly when each one comes back. */
  lemma ReadableExactly(ms: seq<Live>, queue: bool)
    ensures var ns := NormalForms(ms);
            var read := Readable(Entries(ns), queue);
            && |read| <= |ns|
            && (|read| == |ns| <==> forall i | 0 <= i < |ns| :: Comes(ns[i], queue))
            && (|read| == |ns| ==> read == ns)
  {
    var ns := NormalForms(ms);
    var os := ReadEach(Entries(ns), queue);
    forall i | 0 <= i < |ns|
      ensures os[i] == if Comes(ns[i], queue) then Some(ns[i]) else None
    {
      ReadInvertsWriteExactly(ms[i]);
    }
    SomesExactly(os, |os|, ns);
    assert ns[..|ns|] == ns;
  }

  lemma NormalFormsAreFixed(ms: seq<Live>)
    ensures NormalForms(Dicts(NormalForms(ms))) == NormalForms(ms)
  {
    forall i | 0 <= i < |ms| ensures MessageToJson(Dict(MessageToJson(ms[i]))) == MessageToJson(ms[i]) {
      NormalIsFixed(ms[i]);
    }
  }

  predicate AllStorable(ns: seq<Raw>) {
    forall i | 0 <= i < |ns| :: Storable(ns[i])
  }

  /** The sequence check has nothing to drop from these. */
  predicate Complete(ns: seq<Raw>) {
    Validate.Validated(Views(Dicts(ns))) == Views(Dicts(ns))
  }

  /** What a stored history comes back as. */
  function RestoredMessages(ms: seq<Live>): seq<Live> {
    Repaired(Readable(Entries(NormalForms(ms)), false))
  }

  /** A history comes back with the same normal forms exactly when each message is storable and the
      sequence check finds nothing to drop. */
  lemma RestoreExactly(ms: seq<Live>)
    ensures var ns := NormalForms(ms);
            && (NormalForms(RestoredMessages(ms)) == ns <==> AllStorable(ns) && Complete(ns))
            && (AllStorable(ns) && Complete(ns) ==> RestoredMessages(ms) == Dicts(ns))
  {
    var ns := NormalForms(ms);
    ReadableExactly(ms, false);
    assert AllStorable(ns) <==> forall i | 0 <= i < |ns| :: Comes(ns[i], false);
    RepairedLength(Readable(Entries(ns), false));
    NormalFormsAreFixed(ms);
  }

  lemma RepairedLength(read: seq<Raw>)
    ensures |Repaired(read)| <= |read|
    ensures |Repaired(read)| == |read| <==> Complete(read)
    ensures Complete(read) ==> Repaired(read) == Dicts(read)
  {
    var h := Views(Dicts(read));
    Validate.LengthDecides(h);
    Validate.SubsequenceLength(Validate.Validated(h), h);
  }

  /** A queue comes back as it was exactly when it holds system and user messages only. */
  lemma QueueExactly(queue: seq<Live>)
    ensures var ns := NormalForms(queue);
            Readable(Entries(ns), true) == ns <==> forall i | 0 <= i < |ns| :: MayQueue(ns[i])
  {
    var ns := NormalForms(queue);
    ReadableExactly(queue, true);
    assert forall i | 0 <= i < |ns| :: MayQueue(ns[i]) <==> Comes(ns[i], true);
  }

  predicate NoneNegative(c: Counters) {
    && c.prompt >= 0 && c.completion >= 0 && c.cached >= 0 && c.reasoning >= 0 && c.lastPrompt >= 0
    && c.roundMax >= 0 && c.roundPrompt >= 0 && c.roundCached >= 0 && c.roundReasoning >= 0
    && c.roundsSinceTime >= 0
  }

  lemma CountersExactly(c: Counters)
    ensures Checked(c) == c <==> NoneNegative(c)
  {
  }

  // ------------------------------------------------------------------- the same words

  /** A call as it is written down: one that had no kind is a function call. */
  function WithKind(c: ToolCall): ToolCall {
    c.(kind := if c.kind == "" then "function" else c.kind)
  }

  /** The four roles that are stored are the four the model sees. */
  lemma RolesShown(n: Raw)
    requires Storable(n)
    ensures var role := View(Dict(n)).role;
            && !role.Other?
            && (role == System <==> n.role.s == "system") && (role == User <==> n.role.s == "user")
            && (role == Assistant <==> n.role.s == "assistant") && (role == Tool <==> n.role.s == "tool")
  {
  }

  predicate Reads(v: Value, text: string) {
    if v == Absent then text == "" else v == Text(text)
  }

  /** And the model sees every text that is stored: the content, the reasoning, the answered id, and of each
      call its id, kind, name and arguments. */
  lemma TextsShown(m: Live)
    ensures var n := MessageToJson(m);
            var v := View(Dict(n));
            && Reads(n.content, v.content) && Reads(n.reasoning, v.reasoning) && Reads(n.toolCallId, v.answers)
            && |v.calls| == |n.calls|
            && forall i | 0 <= i < |n.calls| ::
                 n.calls[i] == RawCall(Text(v.calls[i].id), Text(v.calls[i].kind), Text(v.calls[i].name),
                                       Text(v.calls[i].arguments))
  {
  }

  /** What is stored of a message says what the message said: the same role, text, reasoning and answered id,
      and the same calls, each with its kind. An object that cannot be dumped keeps its role and text. */
  lemma StoredSaysTheSame(m: Live)
    requires m.raw.role.Text? && m.raw.role.s != "" && (m.raw.content.Odd? ==> m.raw.content.truthy)
    ensures var said, stored := View(m), View(Dict(MessageToJson(m)));
            && stored.role == said.role && stored.content == said.content && !stored.sdk
            && (m.Dict? || m.dumps ==>
                  && stored.reasoning == said.reasoning && stored.answers == said.answers
                  && |stored.calls| == |said.calls|
                  && forall i | 0 <= i < |said.calls| :: stored.calls[i] == WithKind(said.calls[i]))
            && (m.Sdk? && !m.dumps ==> stored.reasoning == "" && stored.answers == "" && stored.calls == [])
  {
  }

  lemma UnviewShows(n: Raw, m: Message)
    requires Storable(n) && m == View(Dict(n))
    ensures View(Unview(m)) == m
  {
    var v := View(Unview(m));
    assert v.calls == m.calls by {
      assert forall i | 0 <= i < |m.calls| :: v.calls[i] == m.calls[i];
    }
  }

  lemma {:induction false} RepairPicks(ms: History, known: set<string>)
    ensures forall m | m in Validate.Repair(ms, known) :: m in ms
    decreases |ms|
  {
    if ms != [] {
      if IsCalling(ms[0]) {
        RepairPicks(ms[1 + |LeadingTools(ms[1..])|..], known + CallIds(ms[0]));
        RepairPicks(ms[1 + |LeadingTools(ms[1..])|..], known);
      } else {
        RepairPicks(ms[1..], known);
      }
    }
  }

  /** What a restored conversation shows the model is the stored history after the sequence check. */
  lemma RestoredShowsRepaired(ns: seq<Raw>)
    requires AllStorable(ns)
    ensures Views(Repaired(ns)) == Validate.Validated(Views(Dicts(ns)))
  {
    var h := Views(Dicts(ns));
    var cleaned := Validate.Validated(h);
    Validate.LengthDecides(h);
    if |cleaned| != |h| {
      RepairPicks(h, {});
      forall i | 0 <= i < |cleaned| ensures View(Unview(cleaned[i])) == cleaned[i] {
        assert cleaned[i] in h;
        var k :| 0 <= k < |h| && h[k] == cleaned[i];
        UnviewShows(ns[k], cleaned[i]);
      }
    }
  }

  /** A restored moment is the stored one unless that lies more than a minute ahead, and a counter is the
      stored one unless that is negative: then it starts again at zero. */
  lemma RestoredNumbers(at: Option<real>, now: real, n: int)
    ensures Believed(at, now) == at || (Believed(at, now) == None && at.value > now + 60.0)
    ensures at.Some? && at.value > now + 60.0 ==> Believed(at, now) == None
    ensures AtLeastZero(n) == n || (AtLeastZero(n) == 0 && n < 0)
    ensures AtLeastZero(n) >= 0
  {
  }

  // ------------------------------------------------------------------ the same rounds

  /** Two messages the splitting treats alike. */
  predicate SplitAlike(a: Message, b: Message) {
    (a.role == System <==> b.role == System) && (a.role == User <==> b.role == User)
  }

  ghost predicate AllAlike(a: History, b: History) {
    |a| == |b| && forall i | 0 <= i < |a| :: SplitAlike(a[i], b[i])
  }

  ghost predicate RoundsAlike(a: seq<History>, b: seq<History>) {
    |a| == |b| && forall i | 0 <= i < |a| :: AllAlike(a[i], b[i])
  }

  lemma StepAlike(a: SplitState, b: SplitState, m: Message, n: Message)
    requires AllAlike(a.pending, b.pending) && RoundsAlike(a.rounds, b.rounds) && SplitAlike(m, n)
    ensures AllAlike(SplitStep(a, m).pending, SplitStep(b, n).pending)
    ensures RoundsAlike(SplitStep(a, m).rounds, SplitStep(b, n).rounds)
  {
    assert AllAlike(a.pending + [m], b.pending + [n]);
    if a.rounds != [] {
      var x, y := a.rounds[|a.rounds| - 1], b.rounds[|b.rounds| - 1];
      assert AllAlike(x, y);
      assert AllAlike(x + [m], y + [n]);
      assert AllAlike(x + (a.pending + [m]), y + (b.pending + [n]));
      assert EndsWithUser(x) <==> EndsWithUser(y);
    }
  }

  lemma {:induction false} ScanAlike(a: History, b: History, n: nat)
    requires AllAlike(a, b) && n <= |a|
    ensures AllAlike(ScanTo(a, n).pending, ScanTo(b, n).pending)
    ensures RoundsAlike(ScanTo(a, n).rounds, ScanTo(b, n).rounds)
  {
    if n > 0 {
      ScanAlike(a, b, n - 1);
      StepAlike(ScanTo(a, n - 1), ScanTo(b, n - 1), a[n - 1], b[n - 1]);
    }
  }

  lemma SplitsAlike(a: History, b: History)
    requires AllAlike(a, b)
    ensures AllAlike(Split(a).preamble, Split(b).preamble) && RoundsAlike(Split(a).rounds, Split(b).rounds)
  {
    ScanAlike(a, b, |a|);
    var x, y := Scan(a), Scan(b);
    if x.rounds != [] {
      var n := |x.rounds| - 1;
      assert AllAlike(x.rounds[n], y.rounds[n]);
      assert AllAlike(x.rounds[n] + x.pending, y.rounds[n] + y.pending);
    }
  }

  /** A history restored whole falls into the same rounds: cut at the same places. */
  lemma RestoreKeepsRounds(ms: seq<Live>)
    requires AllStorable(NormalForms(ms)) && Complete(NormalForms(ms))
    requires forall i | 0 <= i < |ms| :: !ms[i].raw.role.Odd?
    ensures var before, after := Split(Views(ms)), Split(Views(RestoredMessages(ms)));
            AllAlike(before.preamble, after.preamble) && RoundsAlike(before.rounds, after.rounds)
  {
    RestoreExactly(ms);
    var a, b := Views(ms), Views(Dicts(NormalForms(ms)));
    forall i | 0 <= i < |ms|
      ensures SplitAlike(a[i], b[i])
    {
      NormalFormAlike(ms[i]);
    }
    SplitsAlike(a, b);
  }

  lemma NormalFormAlike(m: Live)
    requires !m.raw.role.Odd?
    ensures SplitAlike(View(m), View(Dict(MessageToJson(m))))
  {
  }

  /** A conversation put into a record and read back by a new one. */
  method CopyThroughRecord(c: Conversation, now: real) returns (d: Conversation)
    requires AllStorable(NormalForms(c.messages)) && Complete(NormalForms(c.messages))
    requires forall n | n in NormalForms(c.queue) :: MayQueue(n)
    requires NoneNegative(c.counters)
    requires Believed(c.lastTimeRead, now) == c.lastTimeRead && Believed(c.lastMessageAt, now) == c.lastMessageAt
    ensures d.Stored() == c.Stored() && d.messages == Dicts(NormalForms(c.messages))
  {
    var record := c.ToRecord();
    d := new Conversation();
    var kept := d.Restore(record, now);
    CountersExactly(c.counters);
    RestoreExactly(c.messages);
    QueueExactly(c.queue);
    NormalFormsAreFixed(c.messages);
    NormalFormsAreFixed(c.queue);
  }
}