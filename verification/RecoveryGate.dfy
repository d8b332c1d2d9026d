/**
 * `evaluateAgentRecovery`: reads one recovery turn back from the conversation ledger and says
 * whether the agent chose its identity, read it back and fetched its messages, in that order.
 */
module RecoveryGate {
  import opened Json
  import opened Options

  datatype Input = Input(json: Json, truncated: bool, redacted: bool)

  datatype Kind =
    | PromptAdmitted
    | TurnCompleted(outcome: string)
    | ToolUpsert(id: Option<string>, title: Option<string>, status: Option<string>, input: Option<Input>)
    | OtherKind

  datatype Event = Event(seqNo: int, promptId: Option<string>, generation: string, kind: Kind)

  datatype Record = Record(title: Option<string>, status: Option<string>, input: Option<Input>, completedSeq: Option<int>)

  datatype Reason =
    | ToolsVerified | PromptMissing | TurnIncomplete | TurnFailed
    | ChooseMissing | CurrentMissing | GetMessagesMissing | OrderInvalid

  datatype Evidence = Evidence(
    ok: bool, reason: Reason, chooseIdentity: bool, currentIdentity: bool, getMessages: bool, turnCompleted: bool)

  // ---- one tool call -------------------------------------------------------------------------

  const CHOOSE: set<string> := {"choose_identity", "ours.choose_identity", "mcp__ours__choose_identity"}
  const CURRENT: set<string> := {"current_identity", "ours.current_identity", "mcp__ours__current_identity"}
  const MESSAGES: set<string> := {"get_messages", "ours.get_messages", "mcp__ours__get_messages"}

  function ObjectInput(input: Option<Input>): Option<map<string, Json>> {
    match input
    case Some(Input(Obj(fields), false, false)) => Some(fields)
    case _ => None
  }

  predicate Called(r: Record, names: set<string>) {
    r.title.Some? && r.title.value in names && r.status == Some("completed")
  }

  predicate SafeChoose(r: Record, identity: string) {
    && Called(r, CHOOSE)
    && match ObjectInput(r.input)
       case None => false
       case Some(fields) =>
         && fields.Keys <= {"force", "name"} && "name" in fields && fields["name"] == Str(identity)
         && ("force" in fields ==> fields["force"] == Bool(false))
  }

  predicate SafeCurrent(r: Record) {
    Called(r, CURRENT) && (r.input.None? || ObjectInput(r.input) == Some(map[]))
  }

  predicate SafeMessages(r: Record) {
    && Called(r, MESSAGES)
    && (r.input.None? ||
        match ObjectInput(r.input)
        case None => false
        case Some(fields) =>
          && fields.Keys <= {"limit"}
          && ("limit" in fields ==> fields["limit"].Num? && 1 <= fields["limit"].n <= 200))
  }

  // ---- the ledger in order ---------------------------------------------------------------------

  function Insert(e: Event, sorted: seq<Event>): seq<Event> {
    if sorted == [] || e.seqNo <= sorted[0].seqNo then [e] + sorted
    else [sorted[0]] + Insert(e, sorted[1..])
  }

  /** The stable sort by sequence number. */
  function Sort(events: seq<Event>): seq<Event> {
    if events == [] then [] else Insert(events[0], Sort(events[1..]))
  }

  function First(events: seq<Event>, p: Event -> bool): Option<Event> {
    if events == [] then None
    else if p(events[0]) then Some(events[0])
    else First(events[1..], p)
  }

  function Filter(events: seq<Event>, p: Event -> bool): seq<Event> {
    if events == [] then []
    else if p(events[0]) then [events[0]] + Filter(events[1..], p)
    else Filter(events[1..], p)
  }

  function Admits(prompt: string): Event -> bool {
    (e: Event) => e.kind.PromptAdmitted? && e.promptId == Some(prompt)
  }

  function Ends(prompt: string, admitted: Event): Event -> bool {
    (e: Event) => e.seqNo > admitted.seqNo && e.kind.TurnCompleted? && e.promptId == Some(prompt) && e.generation == admitted.generation
  }

  function Inside(prompt: string, admitted: Event, terminal: Event): Event -> bool {
    (e: Event) => admitted.seqNo < e.seqNo < terminal.seqNo && e.promptId == Some(prompt) && e.generation == admitted.generation
  }

  predicate Upserts(e: Event) {
    e.kind.ToolUpsert? && e.kind.id.Some? && e.kind.id.value != ""
  }

  function Or<T>(newer: Option<T>, older: Option<T>): Option<T> {
    if newer.Some? then newer else older
  }

  function Updated(r: Record, e: Event): Record
    requires Upserts(e)
  {
    Record(Or(e.kind.title, r.title), Or(e.kind.status, r.status), Or(e.kind.input, r.input),
           if e.kind.status == Some("completed") then Some(e.seqNo) else r.completedSeq)
  }

  const EMPTY := Record(None, None, None, None)

  function RecordFor(records: map<string, Record>, e: Event): map<string, Record> {
    if !Upserts(e) then records
    else
      var id := e.kind.id.value;
      records[id := Updated(if id in records then records[id] else EMPTY, e)]
  }

  /** The tool calls of a turn, from its events in order. */
  function Records(window: seq<Event>): map<string, Record> {
    if window == [] then map[] else RecordFor(Records(window[..|window| - 1]), window[|window| - 1])
  }

  predicate InOrder(choose: Record, current: Record, messages: Record) {
    && choose.completedSeq.Some? && current.completedSeq.Some? && messages.completedSeq.Some?
    && choose.completedSeq.value < current.completedSeq.value < messages.completedSeq.value
  }

  predicate Chain(records: map<string, Record>, identity: string) {
    exists c, u, m :: c in records && u in records && m in records
      && SafeChoose(records[c], identity) && SafeCurrent(records[u]) && SafeMessages(records[m])
      && InOrder(records[c], records[u], records[m])
  }

  function Judge(records: map<string, Record>, identity: string): Evidence {
    var choose := exists id :: id in records && SafeChoose(records[id], identity);
    var current := exists id :: id in records && SafeCurrent(records[id]);
    var messages := exists id :: id in records && SafeMessages(records[id]);
    var reason :=
      if !choose then ChooseMissing
      else if !current then CurrentMissing
      else if !messages then GetMessagesMissing
      else if !Chain(records, identity) then OrderInvalid
      else ToolsVerified;
    Evidence(reason.ToolsVerified?, reason, choose, current, messages, true)
  }

  function Nothing(reason: Reason): Evidence {
    Evidence(false, reason, false, false, false, false)
  }

  /** The verdict on events in order. */
  function Verdict(ordered: seq<Event>, prompt: string, identity: string): Evidence {
    match First(ordered, Admits(prompt))
    case None => Nothing(PromptMissing)
    case Some(admitted) =>
      match First(ordered, Ends(prompt, admitted))
      case None => Nothing(TurnIncomplete)
      case Some(terminal) =>
        if !terminal.kind.TurnCompleted? || terminal.kind.outcome != "completed" then Nothing(TurnFailed)
        else Judge(Records(Filter(ordered, Inside(prompt, admitted, terminal))), identity)
  }

  method EvaluateAgentRecovery(events: seq<Event>, prompt: string, identity: string) returns (r: Evidence)
    ensures r == Verdict(Sort(events), prompt, identity)
  {
    var ordered := Sort(events);
    var admitted := First(ordered, Admits(prompt));
    if admitted.None? { return Nothing(PromptMissing); }
    var terminal := First(ordered, Ends(prompt, admitted.value));
    if terminal.None? { return Nothing(TurnIncomplete); }
    var kind := terminal.value.kind;
    if !kind.TurnCompleted? || kind.outcome != "completed" { return Nothing(TurnFailed); }
    var inside := Inside(prompt, admitted.value, terminal.value);
    var records: map<string, Record> := map[];
    for k := 0 to |ordered|
      invariant records == Records(Filter(ordered[..k], inside))
    {
      RecordsOneMore(ordered, k, inside);
      if inside(ordered[k]) {
        records := RecordFor(records, ordered[k]);
      }
    }
    assert ordered[..|ordered|] == ordered;
    r := Judge(records, identity);
  }

  lemma {:induction false} FilterOneMore(events: seq<Event>, k: nat, p: Event -> bool)
    requires k < |events|
    ensures Filter(events[..k + 1], p) ==
            if p(events[k]) then Filter(events[..k], p) + [events[k]] else Filter(events[..k], p)
  {
    if k == 0 {
      assert events[..1] == [events[0]];
    } else {
      FilterOneMore(events[1..], k - 1, p);
      assert events[..k + 1][1..] == events[1..][..k] && events[..k][1..] == events[1..][..k - 1];
    }
  }

  lemma RecordsOfOneMore(window: seq<Event>, e: Event)
    ensures Records(window + [e]) == RecordFor(Records(window), e)
  {
    var longer := window + [e];
    assert longer[..|longer| - 1] == window && longer[|longer| - 1] == e;
  }

  lemma RecordsOneMore(events: seq<Event>, k: nat, p: Event -> bool)
    requires k < |events|
    ensures Records(Filter(events[..k + 1], p)) ==
            if p(events[k]) then RecordFor(Records(Filter(events[..k], p)), events[k]) else Records(Filter(events[..k], p))
  {
    FilterOneMore(events, k, p);
    RecordsOfOneMore(Filter(events[..k], p), events[k]);
  }

  // ---- order and filtering ---------------------------------------------------------------------

  predicate Sorted(events: seq<Event>) {
    forall i, j :: 0 <= i < j < |events| ==> events[i].seqNo <= events[j].seqNo
  }

  /** As the ledger numbers them: no two events with the same number. */
  predicate Numbered(events: seq<Event>) {
    forall i, j :: 0 <= i < j < |events| ==> events[i].seqNo != events[j].seqNo
  }

  lemma {:induction false} InsertMembers(e: Event, sorted: seq<Event>)
    ensures forall x :: x in Insert(e, sorted) <==> x == e || x in sorted
  {
    if sorted != [] && e.seqNo > sorted[0].seqNo {
      InsertMembers(e, sorted[1..]);
      assert sorted == [sorted[0]] + sorted[1..];
    }
  }

  /** A first event keeps a sequence in order if it comes before, or not after, all of it. */
  lemma OrderOfPrepend(e: Event, rest: seq<Event>)
    ensures Sorted(rest) && (forall x :: x in rest ==> e.seqNo <= x.seqNo) ==> Sorted([e] + rest)
    ensures Numbered(rest) && (forall x :: x in rest ==> e.seqNo != x.seqNo) ==> Numbered([e] + rest)
  {
    var all := [e] + rest;
    forall j | 0 < j < |all| ensures all[j] in rest { assert all[j] == rest[j - 1]; }
  }

  lemma Later(events: seq<Event>, x: Event)
    requires events != [] && x in events[1..]
    ensures Sorted(events) ==> events[0].seqNo <= x.seqNo
    ensures Numbered(events) ==> events[0].seqNo != x.seqNo
  {
    var i :| 0 < i < |events| && events[i] == x;
  }

  lemma {:induction false} InsertSorts(e: Event, sorted: seq<Event>)
    requires Sorted(sorted)
    ensures Sorted(Insert(e, sorted))
    ensures Numbered(sorted) && (forall x :: x in sorted ==> x.seqNo != e.seqNo) ==> Numbered(Insert(e, sorted))
  {
    forall x | sorted != [] && x in sorted[1..] ensures sorted[0].seqNo <= x.seqNo && (Numbered(sorted) ==> sorted[0].seqNo != x.seqNo) {
      Later(sorted, x);
    }
    if sorted == [] || e.seqNo <= sorted[0].seqNo {
      OrderOfPrepend(e, sorted);
    } else {
      InsertSorts(e, sorted[1..]);
      InsertMembers(e, sorted[1..]);
      OrderOfPrepend(sorted[0], Insert(e, sorted[1..]));
    }
  }

  lemma {:induction false} SortSorts(events: seq<Event>)
    ensures Sorted(Sort(events)) && forall x :: x in Sort(events) <==> x in events
    ensures Numbered(events) ==> Numbered(Sort(events))
  {
    if events != [] {
      SortSorts(events[1..]);
      InsertSorts(events[0], Sort(events[1..]));
      InsertMembers(events[0], Sort(events[1..]));
      forall x | x in events[1..] && Numbered(events) ensures x.seqNo != events[0].seqNo {
        Later(events, x);
      }
    }
  }

  lemma {:induction false} FilterMembers(events: seq<Event>, p: Event -> bool)
    ensures forall x :: x in Filter(events, p) <==> x in events && p(x)
    ensures Sorted(events) ==> Sorted(Filter(events, p))
    ensures Numbered(events) ==> Numbered(Filter(events, p))
  {
    if events != [] {
      FilterMembers(events[1..], p);
      forall x | x in Filter(events[1..], p)
        ensures Sorted(events) ==> events[0].seqNo <= x.seqNo
        ensures Numbered(events) ==> events[0].seqNo != x.seqNo
      {
        Later(events, x);
      }
      OrderOfPrepend(events[0], Filter(events[1..], p));
    }
  }

  lemma AfterFirst(e: Event, rest: seq<Event>, p: Event -> bool)
    ensures Filter([e] + rest, p) == if p(e) then [e] + Filter(rest, p) else Filter(rest, p)
    ensures First([e] + rest, p) == if p(e) then Some(e) else First(rest, p)
  {
    assert ([e] + rest)[1..] == rest;
  }

  lemma InsertAfterFirst(e: Event, first: Event, rest: seq<Event>)
    ensures Insert(e, [first] + rest) ==
            if e.seqNo <= first.seqNo then [e] + ([first] + rest) else [first] + Insert(e, rest)
  {
    assert ([first] + rest)[1..] == rest;
  }

  lemma InsertFirst(e: Event, rest: seq<Event>)
    requires forall x :: x in rest ==> e.seqNo <= x.seqNo
    ensures Insert(e, rest) == [e] + rest
  {
    if rest != [] {
      assert rest[0] in rest;
    }
  }

  lemma {:induction false} FilterInserted(e: Event, sorted: seq<Event>, p: Event -> bool)
    requires Sorted(sorted)
    ensures Filter(Insert(e, sorted), p) == if p(e) then Insert(e, Filter(sorted, p)) else Filter(sorted, p)
  {
    if sorted == [] || e.seqNo <= sorted[0].seqNo {
      FilterMembers(sorted, p);
      forall x | x in sorted ensures e.seqNo <= x.seqNo {
        var i :| 0 <= i < |sorted| && sorted[i] == x;
      }
      InsertFirst(e, Filter(sorted, p));
      AfterFirst(e, sorted, p);
    } else {
      FilterInserted(e, sorted[1..], p);
      AfterFirst(sorted[0], Insert(e, sorted[1..]), p);
      InsertAfterFirst(e, sorted[0], Filter(sorted[1..], p));
    }
  }

  lemma {:induction false} SortFiltered(events: seq<Event>, p: Event -> bool)
    ensures Sort(Filter(events, p)) == Filter(Sort(events), p)
  {
    if events != [] {
      SortFiltered(events[1..], p);
      SortSorts(events[1..]);
      FilterInserted(events[0], Sort(events[1..]), p);
      var kept := Filter(events[1..], p);
      assert ([events[0]] + kept)[1..] == kept;
    }
  }

  lemma {:induction false} FirstFiltered(events: seq<Event>, p: Event -> bool, q: Event -> bool)
    requires forall e :: p(e) ==> q(e)
    ensures First(Filter(events, q), p) == First(events, p) && Filter(Filter(events, q), p) == Filter(events, p)
  {
    if events != [] {
      FirstFiltered(events[1..], p, q);
      AfterFirst(events[0], Filter(events[1..], q), p);
    }
  }

  // ---- only the turn's own events count -------------------------------------------------------------

  /** The events of the prompt: its admissions, and whatever belongs to `generation`. */
  function Relevant(prompt: string, generation: string): Event -> bool {
    (e: Event) => e.promptId == Some(prompt) && (e.kind.PromptAdmitted? || e.generation == generation)
  }

  /** The generation of the turn, if the prompt was admitted at all. */
  function GenerationOf(events: seq<Event>, prompt: string): Option<string> {
    match First(Sort(events), Admits(prompt))
    case None => None
    case Some(admitted) => Some(admitted.generation)
  }

  /** Events of other prompts or generations, whatever they say, never change the verdict. */
  lemma OnlyOwnEventsCount(events: seq<Event>, prompt: string, identity: string, generation: string)
    requires GenerationOf(events, prompt) == None || GenerationOf(events, prompt) == Some(generation)
    ensures Verdict(Sort(Filter(events, Relevant(prompt, generation))), prompt, identity)
         == Verdict(Sort(events), prompt, identity)
  {
    var ordered, q := Sort(events), Relevant(prompt, generation);
    SortFiltered(events, q);
    FirstFiltered(ordered, Admits(prompt), q);
    match First(ordered, Admits(prompt))
    case None =>
    case Some(admitted) =>
      FirstFiltered(ordered, Ends(prompt, admitted), q);
      match First(ordered, Ends(prompt, admitted))
      case None =>
      case Some(terminal) => FirstFiltered(ordered, Inside(prompt, admitted, terminal), q);
  }

  // ---- arrival order does not count -----------------------------------------------------------------

  lemma NumbersTellApart(events: seq<Event>, x: Event, y: Event)
    requires Numbered(events) && x in events && y in events
    ensures x != y ==> x.seqNo != y.seqNo
  {
    var i :| 0 <= i < |events| && events[i] == x;
    var j :| 0 <= j < |events| && events[j] == y;
  }

  lemma SameHead(a: seq<Event>, b: seq<Event>)
    requires Sorted(a) && Numbered(a) && Sorted(b) && Numbered(b) && a != [] && b != [] && b[0] in a && a[0] in b
    ensures a[0] == b[0]
  {
    var p :| 0 <= p < |a| && a[p] == b[0];
    var q :| 0 <= q < |b| && b[q] == a[0];
    assert a[0].seqNo <= a[p].seqNo && b[0].seqNo <= b[q].seqNo;
    NumbersTellApart(a, a[0], b[0]);
  }

  lemma {:induction false} OneOrder(a: seq<Event>, b: seq<Event>)
    requires Sorted(a) && Numbered(a) && Sorted(b) && Numbered(b) && forall x :: x in a <==> x in b
    ensures a == b
  {
    assert a != [] ==> a[0] in b;
    assert b != [] ==> b[0] in a;
    if a != [] {
      SameHead(a, b);
      forall x ensures x in a[1..] <==> x in b[1..] {
        assert x in a[1..] ==> x in a && x.seqNo != a[0].seqNo;
        assert x in b[1..] ==> x in b && x.seqNo != b[0].seqNo;
      }
      OneOrder(a[1..], b[1..]);
      assert a == [a[0]] + a[1..] && b == [b[0]] + b[1..];
    }
  }

  /** The order in which the events arrived never changes the verdict, when their numbers are distinct. */
  lemma ArrivalOrderDoesNotCount(a: seq<Event>, b: seq<Event>, prompt: string, identity: string)
    requires Numbered(a) && Numbered(b) && forall e :: e in a <==> e in b
    ensures Verdict(Sort(a), prompt, identity) == Verdict(Sort(b), prompt, identity)
  {
    SortSorts(a);
    SortSorts(b);
    OneOrder(Sort(a), Sort(b));
  }

  // ---- what the verdict means ----------------------------------------------------------------------------

  /** `e` is the earliest event that satisfies `p`. */
  ghost predicate Earliest(events: seq<Event>, p: Event -> bool, e: Event) {
    e in events && p(e) && forall f :: f in events && p(f) ==> e.seqNo <= f.seqNo
  }

  lemma {:induction false} FirstIsEarliest(events: seq<Event>, p: Event -> bool)
    requires Sorted(events)
    ensures match First(events, p)
            case Some(e) => Earliest(events, p, e)
            case None => forall e :: e in events ==> !p(e)
  {
    if events != [] {
      FirstIsEarliest(events[1..], p);
      forall x | x in events[1..] ensures events[0].seqNo <= x.seqNo { Later(events, x); }
      assert events == [events[0]] + events[1..];
    }
  }

  /** The last value that the events satisfying `p` give a field. */
  ghost predicate LastValue<T(!new)>(events: seq<Event>, p: Event -> bool, get: Event -> Option<T>, v: Option<T>) {
    match v
    case None => forall e :: e in events && p(e) ==> get(e).None?
    case Some(_) =>
      exists e :: e in events && p(e) && get(e) == v
        && forall f :: f in events && p(f) && get(f).Some? ==> f.seqNo <= e.seqNo
  }

  /** The upserts of the tool call `id`, within the turn. */
  function OfCall(inside: Event -> bool, id: string): Event -> bool {
    (e: Event) => inside(e) && Upserts(e) && e.kind.id == Some(id)
  }

  function Title(e: Event): Option<string> { if e.kind.ToolUpsert? then e.kind.title else None }

  function Status(e: Event): Option<string> { if e.kind.ToolUpsert? then e.kind.status else None }

  function RawInput(e: Event): Option<Input> { if e.kind.ToolUpsert? then e.kind.input else None }

  function Completion(e: Event): Option<int> { if Status(e) == Some("completed") then Some(e.seqNo) else None }

  /** Every field of `r` is what the events of one call last said. */
  ghost predicate Tells(events: seq<Event>, p: Event -> bool, r: Record) {
    && LastValue(events, p, Title, r.title) && LastValue(events, p, Status, r.status)
    && LastValue(events, p, RawInput, r.input) && LastValue(events, p, Completion, r.completedSeq)
  }

  lemma LastValueOneMore<T(!new)>(front: seq<Event>, last: Event, p: Event -> bool, get: Event -> Option<T>, v: Option<T>)
    requires LastValue(front, p, get, v) && forall e :: e in front ==> e.seqNo <= last.seqNo
    ensures LastValue(front + [last], p, get, if p(last) then Or(get(last), v) else v)
  {
    var all := front + [last];
    assert last in all;
    if !(p(last) && get(last).Some?) && v.Some? {
      var e :| e in front && p(e) && get(e) == v && forall f :: f in front && p(f) && get(f).Some? ==> f.seqNo <= e.seqNo;
      assert e in all;
    }
  }

  function Known(records: map<string, Record>, id: string): Record {
    if id in records then records[id] else EMPTY
  }

  lemma TellsOneMore(front: seq<Event>, last: Event, p: Event -> bool, r: Record)
    requires Tells(front, p, r) && (forall e :: e in front ==> e.seqNo <= last.seqNo)
    requires p(last) ==> Upserts(last)
    ensures Tells(front + [last], p, if p(last) then Updated(r, last) else r)
  {
    LastValueOneMore(front, last, p, Title, r.title);
    LastValueOneMore(front, last, p, Status, r.status);
    LastValueOneMore(front, last, p, RawInput, r.input);
    LastValueOneMore(front, last, p, Completion, r.completedSeq);
  }

  lemma KnownOneMore(records: map<string, Record>, last: Event, id: string)
    ensures Known(RecordFor(records, last), id) ==
            if Upserts(last) && last.kind.id == Some(id) then Updated(Known(records, id), last) else Known(records, id)
    ensures id in RecordFor(records, last) <==> id in records || (Upserts(last) && last.kind.id == Some(id))
  {}

  /** Some event of the turn upserts the call `id`. */
  predicate Upserted(window: seq<Event>, inside: Event -> bool, id: string) {
    exists e :: e in window && OfCall(inside, id)(e)
  }

  lemma UpsertedOneMore(front: seq<Event>, last: Event, inside: Event -> bool, id: string)
    ensures Upserted(front + [last], inside, id) <==> Upserted(front, inside, id) || OfCall(inside, id)(last)
  {
    var all := front + [last];
    assert last in all && forall e :: e in all <==> e in front || e == last;
  }

  /** The table the loop builds holds exactly the calls of the turn, each with its last values. */
  lemma {:induction false} RecordsTell(window: seq<Event>, inside: Event -> bool, id: string)
    requires Sorted(window) && forall e :: e in window ==> inside(e)
    ensures Tells(window, OfCall(inside, id), Known(Records(window), id))
    ensures id in Records(window) <==> Upserted(window, inside, id)
  {
    if window != [] {
      var n := |window| - 1;
      var front, last := window[..n], window[n];
      assert window == front + [last];
      RecordsTell(front, inside, id);
      RecordsOfOneMore(front, last);
      KnownOneMore(Records(front), last, id);
      UpsertedOneMore(front, last, inside, id);
      TellsOneMore(front, last, OfCall(inside, id), Known(Records(front), id));
    }
  }

  lemma LastValueIsOne<T(!new)>(events: seq<Event>, p: Event -> bool, get: Event -> Option<T>, v: Option<T>, w: Option<T>)
    requires Numbered(events) && LastValue(events, p, get, v) && LastValue(events, p, get, w)
    ensures v == w
  {
    if v.Some? && w.Some? {
      var e :| e in events && p(e) && get(e) == v && forall f :: f in events && p(f) && get(f).Some? ==> f.seqNo <= e.seqNo;
      var f :| f in events && p(f) && get(f) == w && forall g :: g in events && p(g) && get(g).Some? ==> g.seqNo <= f.seqNo;
      NumbersTellApart(events, e, f);
    }
  }

  lemma TellsOne(events: seq<Event>, p: Event -> bool, r: Record, s: Record)
    requires Numbered(events) && Tells(events, p, r) && Tells(events, p, s)
    ensures r == s
  {
    LastValueIsOne(events, p, Title, r.title, s.title);
    LastValueIsOne(events, p, Status, r.status, s.status);
    LastValueIsOne(events, p, RawInput, r.input, s.input);
    LastValueIsOne(events, p, Completion, r.completedSeq, s.completedSeq);
  }

  lemma TellsInWindow(events: seq<Event>, window: seq<Event>, inside: Event -> bool, id: string, r: Record)
    requires forall e :: e in window <==> e in events && inside(e)
    ensures Tells(window, OfCall(inside, id), r) <==> Tells(events, OfCall(inside, id), r)
  {
    var p := OfCall(inside, id);
    ValueInWindow(events, window, inside, p, Title, r.title);
    ValueInWindow(events, window, inside, p, Status, r.status);
    ValueInWindow(events, window, inside, p, RawInput, r.input);
    ValueInWindow(events, window, inside, p, Completion, r.completedSeq);
  }

  lemma ValueInWindow<T(!new)>(events: seq<Event>, window: seq<Event>, inside: Event -> bool, p: Event -> bool,
                               get: Event -> Option<T>, v: Option<T>)
    requires forall e :: e in window <==> e in events && inside(e)
    requires forall e :: p(e) ==> inside(e)
    ensures LastValue(window, p, get, v) <==> LastValue(events, p, get, v)
  {
    if v.Some? && LastValue(window, p, get, v) {
      var e :| e in window && p(e) && get(e) == v && forall f :: f in window && p(f) && get(f).Some? ==> f.seqNo <= e.seqNo;
      assert e in events;
    }
    if v.Some? && LastValue(events, p, get, v) {
      var e :| e in events && p(e) && get(e) == v && forall f :: f in events && p(f) && get(f).Some? ==> f.seqNo <= e.seqNo;
      assert e in window;
    }
  }

  lemma CallTold(events: seq<Event>, window: seq<Event>, inside: Event -> bool, id: string)
    requires Sorted(window) && (forall e :: e in window <==> e in events && inside(e)) && id in Records(window)
    ensures Tells(events, OfCall(inside, id), Records(window)[id])
  {
    RecordsTell(window, inside, id);
    TellsInWindow(events, window, inside, id, Records(window)[id]);
  }

  lemma CallKnown(events: seq<Event>, window: seq<Event>, inside: Event -> bool, id: string, r: Record)
    requires Sorted(window) && Numbered(window) && forall e :: e in window <==> e in events && inside(e)
    requires Tells(events, OfCall(inside, id), r) && r.title.Some?
    ensures id in Records(window) && Records(window)[id] == r
  {
    RecordsTell(window, inside, id);
    TellsInWindow(events, window, inside, id, r);
    TellsOne(window, OfCall(inside, id), r, Known(Records(window), id));
  }

  /** The chain is about the calls, not about their names. */
  lemma ChainOfValues(records: map<string, Record>, identity: string)
    ensures Chain(records, identity) <==>
            exists c, u, m :: c in records.Values && u in records.Values && m in records.Values
              && SafeChoose(c, identity) && SafeCurrent(u) && SafeMessages(m) && InOrder(c, u, m)
  {
    if c, u, m :| c in records.Values && u in records.Values && m in records.Values
                  && SafeChoose(c, identity) && SafeCurrent(u) && SafeMessages(m) && InOrder(c, u, m) {
      var i :| i in records && records[i] == c;
      var j :| j in records && records[j] == u;
      var k :| k in records && records[k] == m;
    }
  }

  // ---- in the terms of the ledger ------------------------------------------------------------------------

  /** The first admission of the prompt. */
  ghost predicate Admission(events: seq<Event>, prompt: string, a: Event) {
    && a in events && a.kind == PromptAdmitted && a.promptId == Some(prompt)
    && forall e :: e in events && e.kind == PromptAdmitted && e.promptId == Some(prompt) ==> a.seqNo <= e.seqNo
  }

  predicate Ending(e: Event, events: seq<Event>, prompt: string, a: Event) {
    e in events && e.kind.TurnCompleted? && e.promptId == Some(prompt) && e.generation == a.generation && a.seqNo < e.seqNo
  }

  /** The first end of its turn after that. */
  ghost predicate End(events: seq<Event>, prompt: string, a: Event, t: Event) {
    && Ending(t, events, prompt, a)
    && forall e :: Ending(e, events, prompt, a) ==> t.seqNo <= e.seqNo
  }

  predicate Between(e: Event, prompt: string, a: Event, t: Event) {
    e.promptId == Some(prompt) && e.generation == a.generation && a.seqNo < e.seqNo && e.seqNo < t.seqNo
  }

  /** What is said of the tool call `id` strictly between. */
  function CallOf(prompt: string, a: Event, t: Event, id: string): Event -> bool {
    (e: Event) => Between(e, prompt, a, t) && e.kind.ToolUpsert? && e.kind.id == Some(id) && id != ""
  }

  /** What the tool calls of the turn were last left as. */
  ghost function Made(events: seq<Event>, prompt: string, a: Event, t: Event): iset<Record> {
    iset id, r | Tells(events, CallOf(prompt, a, t, id), r) :: r
  }

  /** A completed call by one of these names, whose input is whole and one of these objects. */
  predicate Completed(r: Record, names: seq<string>) {
    r.status == Some("completed") && exists name :: name in names && r.title == Some(name)
  }

  predicate Said(r: Record, fields: map<string, Json>) {
    r.input == Some(Input(Obj(fields), false, false))
  }

  predicate ChoseIdentity(r: Record, identity: string) {
    && Completed(r, ["choose_identity", "ours.choose_identity", "mcp__ours__choose_identity"])
    && (Said(r, map["name" := Str(identity)]) || Said(r, map["name" := Str(identity), "force" := Bool(false)]))
  }

  predicate ReadIdentity(r: Record) {
    && Completed(r, ["current_identity", "ours.current_identity", "mcp__ours__current_identity"])
    && (r.input == None || Said(r, map[]))
  }

  predicate GotMessages(r: Record) {
    && Completed(r, ["get_messages", "ours.get_messages", "mcp__ours__get_messages"])
    && (r.input == None || Said(r, map[]) || exists n :: 1 <= n <= 200 && Said(r, map["limit" := Num(n)]))
  }

  lemma SafeChooseIff(r: Record, identity: string)
    ensures SafeChoose(r, identity) <==> ChoseIdentity(r, identity)
  {
    var fields := ObjectInput(r.input);
    if SafeChoose(r, identity) {
      if "force" in fields.value {
        assert fields.value == map["name" := Str(identity), "force" := Bool(false)];
      } else {
        assert fields.value == map["name" := Str(identity)];
      }
    }
  }

  lemma SafeReadsIff(r: Record)
    ensures SafeCurrent(r) <==> ReadIdentity(r)
    ensures SafeMessages(r) <==> GotMessages(r)
  {
    var fields := ObjectInput(r.input);
    if SafeMessages(r) && r.input.Some? {
      if "limit" in fields.value {
        assert fields.value == map["limit" := Num(fields.value["limit"].n)];
        assert Said(r, map["limit" := Num(fields.value["limit"].n)]);
      } else {
        assert fields.value == map[];
      }
    }
  }

  lemma SameEventsSameTells(events: seq<Event>, p: Event -> bool, q: Event -> bool, r: Record)
    requires forall e :: p(e) <==> q(e)
    ensures Tells(events, p, r) <==> Tells(events, q, r)
  {
    SameEventsSameLast(events, p, q, Title, r.title);
    SameEventsSameLast(events, p, q, Status, r.status);
    SameEventsSameLast(events, p, q, RawInput, r.input);
    SameEventsSameLast(events, p, q, Completion, r.completedSeq);
  }

  lemma SameEventsSameLast<T(!new)>(events: seq<Event>, p: Event -> bool, q: Event -> bool, get: Event -> Option<T>, v: Option<T>)
    requires forall e :: p(e) <==> q(e)
    ensures LastValue(events, p, get, v) <==> LastValue(events, q, get, v)
  {}

  lemma OfCallIsCallOf(events: seq<Event>, prompt: string, a: Event, t: Event, id: string, r: Record)
    ensures Tells(events, OfCall(Inside(prompt, a, t), id), r) <==> Tells(events, CallOf(prompt, a, t, id), r)
  {
    var p, q := OfCall(Inside(prompt, a, t), id), CallOf(prompt, a, t, id);
    forall e ensures p(e) <==> q(e) {
      assert Inside(prompt, a, t)(e) <==> Between(e, prompt, a, t);
    }
    SameEventsSameTells(events, p, q, r);
  }

  lemma InTheLedger(events: seq<Event>, prompt: string, a: Event, t: Event)
    ensures Earliest(events, Admits(prompt), a) <==> Admission(events, prompt, a)
    ensures Earliest(events, Ends(prompt, a), t) <==> End(events, prompt, a, t)
  {}

  /** Among the calls, one chose the identity, one read it back and one got its messages, completed in this order. */
  ghost predicate InThisOrder(made: iset<Record>, identity: string) {
    exists choose, current, messages ::
      && choose in made && ChoseIdentity(choose, identity) && current in made && ReadIdentity(current)
      && messages in made && GotMessages(messages)
      && choose.completedSeq.Some? && current.completedSeq.Some? && messages.completedSeq.Some?
      && choose.completedSeq.value < current.completedSeq.value < messages.completedSeq.value
  }

  /** The verdict on a completed turn that made these calls. */
  ghost predicate Judged(v: Evidence, made: iset<Record>, identity: string) {
    && (v.chooseIdentity <==> exists r :: r in made && ChoseIdentity(r, identity))
    && (v.currentIdentity <==> exists r :: r in made && ReadIdentity(r))
    && (v.getMessages <==> exists r :: r in made && GotMessages(r))
    && v.turnCompleted && (v.ok <==> v.reason.ToolsVerified?)
    && v.reason == (if !v.chooseIdentity then ChooseMissing else if !v.currentIdentity then CurrentMissing
                    else if !v.getMessages then GetMessagesMissing
                    else if !InThisOrder(made, identity) then OrderInvalid else ToolsVerified)
  }

  /** The records are calls the turn made, and all of them that have a title. */
  ghost predicate Tabled(records: map<string, Record>, made: iset<Record>) {
    && (forall id :: id in records ==> records[id] in made)
    && (forall r :: r in made && r.title.Some? ==> r in records.Values)
  }

  lemma RecordsAreMade(events: seq<Event>, window: seq<Event>, prompt: string, a: Event, t: Event)
    requires Sorted(window) && Numbered(window) && forall e :: e in window <==> e in events && Inside(prompt, a, t)(e)
    ensures Tabled(Records(window), Made(events, prompt, a, t))
  {
    var inside, records := Inside(prompt, a, t), Records(window);
    forall id | id in records ensures records[id] in Made(events, prompt, a, t) {
      CallTold(events, window, inside, id);
      OfCallIsCallOf(events, prompt, a, t, id, records[id]);
    }
    forall r | r in Made(events, prompt, a, t) && r.title.Some? ensures r in records.Values {
      var id :| Tells(events, CallOf(prompt, a, t, id), r);
      OfCallIsCallOf(events, prompt, a, t, id, r);
      CallKnown(events, window, inside, id, r);
    }
  }

  lemma SafeIff(identity: string)
    ensures forall r :: SafeChoose(r, identity) <==> ChoseIdentity(r, identity)
    ensures forall r :: (SafeCurrent(r) <==> ReadIdentity(r)) && (SafeMessages(r) <==> GotMessages(r))
  {
    forall r
      ensures SafeChoose(r, identity) <==> ChoseIdentity(r, identity)
      ensures (SafeCurrent(r) <==> ReadIdentity(r)) && (SafeMessages(r) <==> GotMessages(r))
    {
      SafeChooseIff(r, identity);
      SafeReadsIff(r);
    }
  }

  lemma SomeChoseIff(records: map<string, Record>, made: iset<Record>, identity: string)
    requires Tabled(records, made)
    ensures (exists id :: id in records && SafeChoose(records[id], identity)) <==> exists r :: r in made && ChoseIdentity(r, identity)
  {
    SafeIff(identity);
    if r :| r in made && ChoseIdentity(r, identity) {
      var id :| id in records && records[id] == r;
    }
  }

  lemma SomeReadIff(records: map<string, Record>, made: iset<Record>)
    requires Tabled(records, made)
    ensures (exists id :: id in records && SafeCurrent(records[id])) <==> exists r :: r in made && ReadIdentity(r)
  {
    SafeIff("");
    if r :| r in made && ReadIdentity(r) {
      var id :| id in records && records[id] == r;
    }
  }

  lemma SomeGotIff(records: map<string, Record>, made: iset<Record>)
    requires Tabled(records, made)
    ensures (exists id :: id in records && SafeMessages(records[id])) <==> exists r :: r in made && GotMessages(r)
  {
    SafeIff("");
    if r :| r in made && GotMessages(r) {
      var id :| id in records && records[id] == r;
    }
  }

  lemma ChainIff(records: map<string, Record>, made: iset<Record>, identity: string)
    requires Tabled(records, made)
    ensures Chain(records, identity) <==> InThisOrder(made, identity)
  {
    SafeIff(identity);
    ChainOfValues(records, identity);
    if c, u, m :| c in made && ChoseIdentity(c, identity) && u in made && ReadIdentity(u) && m in made && GotMessages(m)
                  && InOrder(c, u, m) {
      assert c in records.Values && u in records.Values && m in records.Values;
    }
  }

  lemma JudgedByCalls(records: map<string, Record>, made: iset<Record>, identity: string)
    requires Tabled(records, made)
    ensures Judged(Judge(records, identity), made, identity)
  {
    SomeChoseIff(records, made, identity);
    SomeReadIff(records, made);
    SomeGotIff(records, made);
    ChainIff(records, made, identity);
  }

  /**
   * The verdict in full.  Without an admission, without an end, or with one that is not
   * `completed`, that is the reason and nothing else holds; otherwise it says which of the three
   * calls the turn made, and the first of them that is missing, or their order, is the reason.
   */
  lemma VerdictSays(events: seq<Event>, prompt: string, identity: string)
    requires Numbered(events)
    ensures var v := Verdict(Sort(events), prompt, identity);
            && ((forall a :: !Admission(events, prompt, a)) ==> v == Evidence(false, PromptMissing, false, false, false, false))
            && forall a :: Admission(events, prompt, a) ==>
                 && ((forall t :: !End(events, prompt, a, t)) ==> v == Evidence(false, TurnIncomplete, false, false, false, false))
                 && forall t :: End(events, prompt, a, t) ==>
                      if t.kind.outcome != "completed" then v == Evidence(false, TurnFailed, false, false, false, false)
                      else Judged(v, Made(events, prompt, a, t), identity)
  {
    var ordered := Sort(events);
    SortSorts(events);
    FirstIsEarliest(ordered, Admits(prompt));
    var v := Verdict(ordered, prompt, identity);
    forall a | Admission(events, prompt, a)
      ensures (forall t :: !End(events, prompt, a, t)) ==> v == Evidence(false, TurnIncomplete, false, false, false, false)
      ensures forall t :: End(events, prompt, a, t) ==>
                if t.kind.outcome != "completed" then v == Evidence(false, TurnFailed, false, false, false, false)
                else Judged(v, Made(events, prompt, a, t), identity)
    {
      InTheLedger(events, prompt, a, a);
      var first := First(ordered, Admits(prompt));
      EarliestIsOne(events, Admits(prompt), a, first.value);
      FirstIsEarliest(ordered, Ends(prompt, a));
      forall t | End(events, prompt, a, t)
        ensures if t.kind.outcome != "completed" then v == Evidence(false, TurnFailed, false, false, false, false)
                else Judged(v, Made(events, prompt, a, t), identity)
      {
        InTheLedger(events, prompt, a, t);
        EarliestIsOne(events, Ends(prompt, a), t, First(ordered, Ends(prompt, a)).value);
        FilterMembers(ordered, Inside(prompt, a, t));
        var window := Filter(ordered, Inside(prompt, a, t));
        RecordsAreMade(events, window, prompt, a, t);
        JudgedByCalls(Records(window), Made(events, prompt, a, t), identity);
      }
      if First(ordered, Ends(prompt, a)).Some? {
        InTheLedger(events, prompt, a, First(ordered, Ends(prompt, a)).value);
      }
    }
    if First(ordered, Admits(prompt)).Some? {
      InTheLedger(events, prompt, First(ordered, Admits(prompt)).value, First(ordered, Admits(prompt)).value);
    }
  }

  /**
   * The verdict is ok if and only if, strictly between the admission of the prompt and the
   * completed end of its turn, the three calls were made with the required inputs and completed
   * in that order.
   */
  lemma OkExactly(events: seq<Event>, prompt: string, identity: string)
    requires Numbered(events)
    ensures Verdict(Sort(events), prompt, identity).ok <==>
            exists a, t :: Admission(events, prompt, a) && End(events, prompt, a, t) && t.kind.outcome == "completed"
                           && InThisOrder(Made(events, prompt, a, t), identity)
  {
    VerdictSays(events, prompt, identity);
  }

  lemma EarliestIsOne(events: seq<Event>, p: Event -> bool, a: Event, b: Event)
    requires Numbered(events) && Earliest(events, p, a) && Earliest(events, p, b)
    ensures a == b
  {
    NumbersTellApart(events, a, b);
  }
}
