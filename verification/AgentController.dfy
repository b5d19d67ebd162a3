/** The Link's controller: which requests it admits, which it executes, and its two
    bounded tables of remembered fingerprints and terminal messages. */
module AgentController {
  import opened Options
  import opened OrderedTable

  const FingerprintLimit: nat := 512
  const TerminalLimit: nat := 256

  // ---------------------------------------------------------------- data model

  /** A call id with the fingerprint of its request. */
  type Request = (nat, nat)

  /** `ready` holds the requests of coroutines that may still reach execution,
      `admitted` and `executed` count what happened since the start. */
  datatype State = State(
    pending: map<nat, nat>,                // call -> fingerprint, awaiting a decision
    fingerprints: seq<(nat, nat)>,
    terminals: seq<(nat, nat)>,            // call -> terminal message
    cancellations: map<nat, bool>,         // calls in execution, with their event
    closed: bool,
    ready: multiset<Request>,
    running: multiset<Request>,
    admitted: multiset<Request>,
    executed: multiset<Request>
  )

  function Initial(): State {
    State(map[], [], [], map[], false, multiset{}, multiset{}, multiset{}, multiset{})
  }

  /** Calls whose fingerprint must not be forgotten. */
  function HeldCalls(s: State): set<nat> {
    s.pending.Keys + s.cancellations.Keys
  }

  // ------------------------------------------------------------ bounded tables

  datatype Tables = Tables(fingerprints: seq<(nat, nat)>, terminals: seq<(nat, nat)>)

  /** The oldest fingerprint that may go; the length of the table if there is none. */
  function FirstFree(table: seq<(nat, nat)>, current: nat, held: set<nat>): (i: nat)
    ensures i <= |table|
    ensures i < |table| ==> table[i].0 != current && table[i].0 !in held
    ensures forall j | 0 <= j < i :: table[j].0 == current || table[j].0 in held
  {
    if table == [] then 0
    else if table[0].0 != current && table[0].0 !in held then 0
    else 1 + FirstFree(table[1..], current, held)
  }

  function TrimFingerprints(t: Tables, current: nat, held: set<nat>): Tables
    decreases |t.fingerprints|
  {
    var i := FirstFree(t.fingerprints, current, held);
    if |t.fingerprints| <= FingerprintLimit || i == |t.fingerprints| then t
    else
      var key := t.fingerprints[i].0;
      assert Has(t.fingerprints, key);
      WithoutFacts(t.fingerprints, key);
      TrimFingerprints(Tables(Without(t.fingerprints, key), Without(t.terminals, key)), current, held)
  }

  function WithFingerprint(t: Tables, call: nat, fingerprint: nat, held: set<nat>): Tables {
    TrimFingerprints(t.(fingerprints := Without(t.fingerprints, call) + [(call, fingerprint)]), call, held)
  }

  function TrimTerminals(t: Tables, held: set<nat>): Tables
    decreases |t.terminals|
  {
    if |t.terminals| <= TerminalLimit then t
    else
      var key := t.terminals[0].0;
      TrimTerminals(Tables(if key in held then t.fingerprints else Without(t.fingerprints, key), t.terminals[1..]), held)
  }

  function WithTerminal(t: Tables, call: nat, message: nat, held: set<nat>): Tables {
    TrimTerminals(t.(terminals := Without(t.terminals, call) + [(call, message)]), held)
  }

  /** Removing one key from a table of distinct keys cuts out one position. */
  lemma {:induction false} WithoutIsCut(table: seq<(nat, nat)>, i: nat)
    requires Distinct(table) && i < |table|
    ensures var r := Without(table, table[i].0);
            && |r| == |table| - 1
            && forall j | 0 <= j < |r| :: r[j] == table[if j < i then j else j + 1]
  {
    var rest := table[1..];
    if i == 0 {
      WithoutAbsent(rest, table[0].0);
    } else {
      WithoutIsCut(rest, i - 1);
      var cut := Without(rest, rest[i - 1].0);
      assert Without(table, table[i].0) == [table[0]] + cut;
    }
  }

  lemma {:induction false} WithoutAbsent(table: seq<(nat, nat)>, key: nat)
    requires forall i | 0 <= i < |table| :: table[i].0 != key
    ensures Without(table, key) == table
  {
    if table != [] {
      WithoutAbsent(table[1..], key);
    }
  }

  /** Forgetting keeps what it must and forgets no more than it must. */
  lemma {:induction false} TrimIsExact(t: Tables, current: nat, held: set<nat>)
    requires Distinct(t.fingerprints)
    ensures var r := TrimFingerprints(t, current, held);
            && Distinct(r.fingerprints)
            && (forall e | e in r.fingerprints :: e in t.fingerprints)
            && (forall e | e in t.fingerprints && (e.0 == current || e.0 in held) :: e in r.fingerprints)
            && (|r.fingerprints| > FingerprintLimit ==>
                  forall e | e in r.fingerprints :: e.0 == current || e.0 in held)
            && |r.fingerprints| <= |t.fingerprints|
            && (|r.fingerprints| < |t.fingerprints| ==> |r.fingerprints| >= FingerprintLimit)
            && |r.terminals| <= |t.terminals|
    decreases |t.fingerprints|
  {
    var i := FirstFree(t.fingerprints, current, held);
    if |t.fingerprints| > FingerprintLimit && i < |t.fingerprints| {
      var key := t.fingerprints[i].0;
      var next := Tables(Without(t.fingerprints, key), Without(t.terminals, key));
      WithoutKeepsDistinct(t.fingerprints, key);
      WithoutFacts(t.fingerprints, key);
      WithoutIsCut(t.fingerprints, i);
      assert |next.fingerprints| == |t.fingerprints| - 1;
      TrimIsExact(next, current, held);
    }
  }

  /** With a fingerprint goes the terminal message of its call, and no other. */
  lemma {:induction false} TrimDropsTerminals(t: Tables, current: nat, held: set<nat>)
    requires Distinct(t.fingerprints)
    ensures var r := TrimFingerprints(t, current, held);
            forall e :: e in r.terminals <==> e in t.terminals && (Has(t.fingerprints, e.0) ==> Has(r.fingerprints, e.0))
    decreases |t.fingerprints|
  {
    var i := FirstFree(t.fingerprints, current, held);
    if |t.fingerprints| > FingerprintLimit && i < |t.fingerprints| {
      var key := t.fingerprints[i].0;
      var next := Tables(Without(t.fingerprints, key), Without(t.terminals, key));
      WithoutKeepsDistinct(t.fingerprints, key);
      WithoutFacts(t.fingerprints, key);
      WithoutFacts(t.terminals, key);
      assert Has(t.fingerprints, key);
      TrimDropsTerminals(next, current, held);
      var r := TrimFingerprints(next, current, held);
      TrimIsExact(next, current, held);
      KeyIsGone(r.fingerprints, next.fingerprints, key);
      forall k: nat | k != key ensures Has(t.fingerprints, k) <==> Has(next.fingerprints, k) {
        WithoutKeepsOthers(t.fingerprints, key, k);
      }
    }
  }

  lemma KeyIsGone(small: seq<(nat, nat)>, big: seq<(nat, nat)>, key: nat)
    requires forall e | e in small :: e in big
    requires forall e | e in big :: e.0 != key
    ensures !Has(small, key)
  {
    forall i | 0 <= i < |small| ensures small[i].0 != key {
      assert small[i] in small;
    }
  }

  lemma WithoutKeepsOthers(table: seq<(nat, nat)>, key: nat, k: nat)
    requires k != key
    ensures Has(table, k) <==> Has(Without(table, key), k)
  {
    WithoutFacts(table, key);
    var r := Without(table, key);
    if Has(table, k) {
      var i :| 0 <= i < |table| && table[i].0 == k;
      assert table[i] in r;
    }
    if Has(r, k) {
      var i :| 0 <= i < |r| && r[i].0 == k;
      assert r[i] in table;
    }
  }

  /** The newest entry is the current call's. */
  lemma {:induction false} TrimKeepsNewest(t: Tables, current: nat, held: set<nat>)
    requires Distinct(t.fingerprints) && t.fingerprints != [] && t.fingerprints[|t.fingerprints| - 1].0 == current
    ensures var r := TrimFingerprints(t, current, held).fingerprints;
            r != [] && r[|r| - 1] == t.fingerprints[|t.fingerprints| - 1]
    decreases |t.fingerprints|
  {
    var i := FirstFree(t.fingerprints, current, held);
    if |t.fingerprints| > FingerprintLimit && i < |t.fingerprints| {
      var key := t.fingerprints[i].0;
      CutKeepsNewest(t.fingerprints, i);
      TrimKeepsNewest(Tables(Without(t.fingerprints, key), Without(t.terminals, key)), current, held);
    }
  }

  lemma CutKeepsNewest(table: seq<(nat, nat)>, i: nat)
    requires Distinct(table) && i < |table| - 1
    ensures var r := Without(table, table[i].0);
            Distinct(r) && r != [] && |r| < |table| && r[|r| - 1] == table[|table| - 1]
  {
    WithoutKeepsDistinct(table, table[i].0);
    WithoutIsCut(table, i);
  }

  /** How many of the first i entries may go. */
  function FreeBefore(table: seq<(nat, nat)>, i: nat, current: nat, held: set<nat>): (n: nat)
    requires i <= |table|
    ensures n <= i
  {
    if i == 0 then 0
    else FreeBefore(table, i - 1, current, held)
         + if table[i - 1].0 != current && table[i - 1].0 !in held then 1 else 0
  }

  lemma {:induction false} NoneFreeBefore(table: seq<(nat, nat)>, i: nat, current: nat, held: set<nat>)
    requires i <= |table| && forall j | 0 <= j < i :: table[j].0 == current || table[j].0 in held
    ensures FreeBefore(table, i, current, held) == 0
  {
    if i > 0 {
      NoneFreeBefore(table, i - 1, current, held);
    }
  }

  lemma {:induction false} CutCounts(table: seq<(nat, nat)>, cut: seq<(nat, nat)>, k: nat, i: nat, current: nat, held: set<nat>)
    requires |cut| == |table| - 1 && forall j | 0 <= j < |cut| :: cut[j] == table[if j < k then j else j + 1]
    requires k < |table| && table[k].0 != current && table[k].0 !in held && k < i < |table|
    ensures FreeBefore(table, i, current, held) == FreeBefore(cut, i - 1, current, held) + 1
  {
    if k + 1 < i {
      CutCounts(table, cut, k, i - 1, current, held);
    } else {
      SameCount(table, cut, k, current, held);
    }
  }

  lemma {:induction false} SameCount(table: seq<(nat, nat)>, other: seq<(nat, nat)>, i: nat, current: nat, held: set<nat>)
    requires i <= |table| && i <= |other| && forall j | 0 <= j < i :: table[j] == other[j]
    ensures FreeBefore(table, i, current, held) == FreeBefore(other, i, current, held)
  {
    if i > 0 {
      SameCount(table, other, i - 1, current, held);
    }
  }

  /** Which entries go: the first free ones, as many as the table is over its limit. */
  lemma {:induction false} ForgottenExactlyWhen(t: Tables, current: nat, held: set<nat>, i: nat)
    requires Distinct(t.fingerprints) && i < |t.fingerprints|
    requires t.fingerprints[i].0 != current && t.fingerprints[i].0 !in held
    ensures Has(TrimFingerprints(t, current, held).fingerprints, t.fingerprints[i].0)
            <==> |t.fingerprints| <= FingerprintLimit + FreeBefore(t.fingerprints, i, current, held)
    decreases |t.fingerprints|
  {
    var table, k := t.fingerprints, FirstFree(t.fingerprints, current, held);
    if |table| > FingerprintLimit {
      var key := table[k].0;
      var next := Tables(Without(table, key), Without(t.terminals, key));
      WithoutKeepsDistinct(table, key);
      WithoutFacts(table, key);
      WithoutIsCut(table, k);
      assert Has(table, key);
      if k == i {
        NoneFreeBefore(table, i, current, held);
        TrimIsExact(next, current, held);
      } else {
        assert next.fingerprints[i - 1] == table[i];
        CutCounts(table, next.fingerprints, k, i, current, held);
        ForgottenExactlyWhen(next, current, held, i - 1);
      }
    }
  }

  lemma {:induction false} FreeBeforeGrows(table: seq<(nat, nat)>, a: nat, b: nat, current: nat, held: set<nat>)
    requires a <= b <= |table|
    ensures FreeBefore(table, a, current, held) <= FreeBefore(table, b, current, held)
  {
    if a < b {
      FreeBeforeGrows(table, a, b - 1, current, held);
    }
  }

  /** So the oldest go first: whatever may go and is older than something forgotten is
      forgotten too. */
  lemma TrimForgetsOldest(t: Tables, current: nat, held: set<nat>, a: nat, b: nat)
    requires Distinct(t.fingerprints) && a < b < |t.fingerprints|
    requires t.fingerprints[a].0 != current && t.fingerprints[a].0 !in held
    requires t.fingerprints[b] !in TrimFingerprints(t, current, held).fingerprints
    ensures t.fingerprints[a] !in TrimFingerprints(t, current, held).fingerprints
  {
    var r, key := TrimFingerprints(t, current, held).fingerprints, t.fingerprints[b].0;
    TrimIsExact(t, current, held);
    ForgottenExactlyWhen(t, current, held, a);
    ForgottenExactlyWhen(t, current, held, b);
    FreeBeforeGrows(t.fingerprints, a, b, current, held);
    forall i | 0 <= i < |r| ensures r[i].0 != key {
      assert r[i] in r;
    }
  }

  lemma {:induction false} TrimTerminalsIsExact(t: Tables, held: set<nat>)
    requires Distinct(t.fingerprints) && Distinct(t.terminals)
    ensures var r := TrimTerminals(t, held);
            && Distinct(r.fingerprints) && Distinct(r.terminals)
            && |r.terminals| <= TerminalLimit
            && r.terminals == t.terminals[|t.terminals| - |r.terminals|..]
            && (|t.terminals| <= TerminalLimit ==> r == t)
            && |r.fingerprints| <= |t.fingerprints|
            && (forall e | e in r.fingerprints :: e in t.fingerprints)
            && (forall e | e in t.fingerprints && e.0 in held :: e in r.fingerprints)
    decreases |t.terminals|
  {
    if |t.terminals| > TerminalLimit {
      var key := t.terminals[0].0;
      var next := Tables(if key in held then t.fingerprints else Without(t.fingerprints, key), t.terminals[1..]);
      WithoutKeepsDistinct(t.fingerprints, key);
      WithoutFacts(t.fingerprints, key);
      TrimTerminalsIsExact(next, held);
    }
  }

  /** The oldest terminals beyond the limit go, and with them the fingerprints of their
      calls unless those are held; no other fingerprint goes. */
  lemma {:induction false} TrimForgetsWithTerminals(t: Tables, held: set<nat>, e: Request)
    ensures var r, over := TrimTerminals(t, held), if |t.terminals| > TerminalLimit then |t.terminals| - TerminalLimit else 0;
            && r.terminals == t.terminals[over..]
            && (e in r.fingerprints <==> e in t.fingerprints && (e.0 in held || !Has(t.terminals[..over], e.0)))
    decreases |t.terminals|
  {
    if |t.terminals| > TerminalLimit {
      var key, over := t.terminals[0].0, |t.terminals| - TerminalLimit;
      var next := Tables(if key in held then t.fingerprints else Without(t.fingerprints, key), t.terminals[1..]);
      WithoutFacts(t.fingerprints, key);
      TrimForgetsWithTerminals(next, held, e);
      HasSplits(t.terminals[..over], e.0);
      assert t.terminals[..over][1..] == next.terminals[..over - 1];
    }
  }

  lemma HasSplits(table: seq<(nat, nat)>, key: nat)
    requires table != []
    ensures Has(table, key) <==> table[0].0 == key || Has(table[1..], key)
  {
    if Has(table[1..], key) {
      var i :| 0 <= i < |table[1..]| && table[1..][i].0 == key;
      assert table[i + 1].0 == key;
    }
    if Has(table, key) && table[0].0 != key {
      var i :| 0 <= i < |table| && table[i].0 == key;
      assert table[1..][i - 1].0 == key;
    }
  }

  // ------------------------------------------------------- the sections as functions

  /** Which way a freshly admitted request goes, by local policy. */
  datatype Route = Reject | Execute | Approve | Prompt

  datatype Answer = Ignored | Resent(message: nat) | Admitted

  function Lookup(table: seq<(nat, nat)>, key: nat): (r: Option<nat>)
    ensures r.Some? ==> (key, r.value) in table
    ensures r.None? <==> !Has(table, key)
  {
    if table == [] then None
    else if table[0].0 == key then Some(table[0].1)
    else Lookup(table[1..], key)
  }

  function WithTables(s: State, t: Tables): State {
    s.(fingerprints := t.fingerprints, terminals := t.terminals)
  }

  function TablesOf(s: State): Tables {
    Tables(s.fingerprints, s.terminals)
  }

  function Admit(s: State, c: nat, f: nat): State {
    WithTables(s, WithFingerprint(TablesOf(s), c, f, HeldCalls(s))).(admitted := s.admitted + multiset{(c, f)})
  }

  function Begin(s: State, c: nat, f: nat): State {
    s.(cancellations := s.cancellations[c := false],
       running := s.running + multiset{(c, f)},
       executed := s.executed + multiset{(c, f)})
  }

  function Routed(s: State, c: nat, f: nat, route: Route): State {
    match route
    case Reject => s
    case Execute => Begin(s, c, f)
    case Approve => s.(ready := s.ready + multiset{(c, f)})
    case Prompt => s.(pending := s.pending[c := f])
  }

  /** handle_server_event, for a valid request to this Link. */
  function Receive(s: State, c: nat, f: nat, route: Route): (State, Answer) {
    if s.closed then (s, Ignored)
    else
      match Lookup(s.fingerprints, c)
      case Some(known) =>
        var cached := Lookup(s.terminals, c);
        (s, if known == f && cached.Some? then Resent(cached.value) else Ignored)
      case None => (Routed(Admit(s, c, f), c, f, route), Admitted)
  }

  /** decide, up to its first await; a granted approval goes on to execution. */
  function Decide(s: State, c: nat, granted: bool): State {
    if c !in s.pending then s
    else
      var s1 := s.(pending := s.pending - {c});
      if s.closed || !granted then s1 else s1.(ready := s.ready + multiset{(c, s.pending[c])})
  }

  function EndExecution(s: State, c: nat, f: nat): State {
    s.(running := s.running - multiset{(c, f)}, cancellations := s.cancellations - {c})
  }

  function Cancel(s: State, c: nat): State {
    if s.closed || c !in s.cancellations then s else s.(cancellations := s.cancellations[c := true])
  }

  function Close(s: State): State {
    if s.closed then s
    else s.(closed := true, cancellations := map c | c in s.cancellations :: true, pending := map[])
  }

  // ---------------------------------------------------------------------- runs

  datatype Action =
    | OnRequest(call: nat, fingerprint: nat, route: Route)
    | OnDecision(call: nat, granted: bool)
    | OnApproved(call: nat, fingerprint: nat)     // the approval was sent: execution begins
    | OnAbandoned(call: nat, fingerprint: nat)    // the coroutine fails before it
    | OnTerminal(call: nat, message: nat)
    | OnEnd(call: nat, fingerprint: nat)
    | OnCancel(call: nat)
    | OnClose

  predicate Enabled(s: State, a: Action) {
    match a
    case OnApproved(c, f) => (c, f) in s.ready
    case OnAbandoned(c, f) => (c, f) in s.ready
    case OnEnd(c, f) => (c, f) in s.running
    case _ => true
  }

  function Do(s: State, a: Action): State {
    match a
    case OnRequest(c, f, route) => Receive(s, c, f, route).0
    case OnDecision(c, granted) => Decide(s, c, granted)
    case OnApproved(c, f) => Begin(s.(ready := s.ready - multiset{(c, f)}), c, f)
    case OnAbandoned(c, f) => s.(ready := s.ready - multiset{(c, f)})
    case OnTerminal(c, m) => WithTables(s, WithTerminal(TablesOf(s), c, m, HeldCalls(s)))
    case OnEnd(c, f) => EndExecution(s, c, f)
    case OnCancel(c) => Cancel(s, c)
    case OnClose => Close(s)
  }

  ghost predicate IsRun(states: seq<State>, actions: seq<Action>) {
    && |states| == |actions| + 1
    && states[0] == Initial()
    && forall i | 0 <= i < |actions| :: Enabled(states[i], actions[i]) && states[i + 1] == Do(states[i], actions[i])
  }

  function Waiting(s: State, k: Request): nat {
    if k.0 in s.pending && s.pending[k.0] == k.1 then 1 else 0
  }

  /** Every execution, and everything that can still become one, was admitted. */
  ghost predicate Accounted(s: State) {
    forall k: Request :: s.executed[k] + s.ready[k] + Waiting(s, k) <= s.admitted[k]
  }

  ghost predicate Inv(s: State) {
    && Distinct(s.fingerprints) && Distinct(s.terminals) && |s.terminals| <= TerminalLimit
    && (forall c | c in s.pending :: (c, s.pending[c]) in s.fingerprints)
    && Accounted(s)
  }

  lemma AdmitFacts(s: State, c: nat, f: nat)
    requires Inv(s) && !Has(s.fingerprints, c)
    ensures var s' := Admit(s, c, f);
            && Distinct(s'.fingerprints) && Distinct(s'.terminals) && |s'.terminals| <= TerminalLimit
            && (c, f) in s'.fingerprints
            && (forall e | e in s.fingerprints && e.0 in HeldCalls(s) :: e in s'.fingerprints)
            && (|s'.fingerprints| > FingerprintLimit ==>
                  forall e | e in s'.fingerprints :: e.0 == c || e.0 in HeldCalls(s))
            && c !in s.pending && s'.pending == s.pending
            && (forall d | d in s.pending :: (d, s.pending[d]) in s'.fingerprints)
  {
    var t := TablesOf(s).(fingerprints := Without(s.fingerprints, c) + [(c, f)]);
    WithoutKeepsDistinct(s.fingerprints, c);
    WithoutFacts(s.fingerprints, c);
    assert Distinct(t.fingerprints);
    assert (c, f) in t.fingerprints;
    TrimIsExact(t, c, HeldCalls(s));
    TrimKeepsTerminals(t, c, HeldCalls(s));
  }

  lemma {:induction false} TrimKeepsTerminals(t: Tables, current: nat, held: set<nat>)
    requires Distinct(t.terminals)
    ensures Distinct(TrimFingerprints(t, current, held).terminals)
    decreases |t.fingerprints|
  {
    var i := FirstFree(t.fingerprints, current, held);
    if |t.fingerprints| > FingerprintLimit && i < |t.fingerprints| {
      var key := t.fingerprints[i].0;
      assert Has(t.fingerprints, key);
      WithoutFacts(t.fingerprints, key);
      WithoutKeepsDistinct(t.terminals, key);
      TrimKeepsTerminals(Tables(Without(t.fingerprints, key), Without(t.terminals, key)), current, held);
    }
  }

  lemma TerminalFacts(s: State, c: nat, m: nat)
    requires Inv(s)
    ensures var t := WithTerminal(TablesOf(s), c, m, HeldCalls(s));
            && Distinct(t.fingerprints) && Distinct(t.terminals) && |t.terminals| <= TerminalLimit
            && |t.fingerprints| <= |s.fingerprints|
            && (forall e | e in s.fingerprints && e.0 in HeldCalls(s) :: e in t.fingerprints)
  {
    WithoutKeepsDistinct(s.terminals, c);
    WithoutFacts(s.terminals, c);
    TrimTerminalsIsExact(TablesOf(s).(terminals := Without(s.terminals, c) + [(c, m)]), HeldCalls(s));
  }

  lemma TerminalIsRemembered(t: Tables, c: nat, m: nat, held: set<nat>)
    ensures var r := WithTerminal(t, c, m, held).terminals;
            r != [] && r[|r| - 1] == (c, m)
  {
    TrimForgetsWithTerminals(t.(terminals := Without(t.terminals, c) + [(c, m)]), held, (c, m));
  }

  lemma NewestIsRemembered(t: Tables, c: nat, f: nat, held: set<nat>)
    ensures var r := WithFingerprint(t, c, f, held).fingerprints;
            Distinct(t.fingerprints) ==> r != [] && r[|r| - 1] == (c, f)
  {
    if Distinct(t.fingerprints) {
      WithoutKeepsDistinct(t.fingerprints, c);
      WithoutFacts(t.fingerprints, c);
      TrimKeepsNewest(t.(fingerprints := Without(t.fingerprints, c) + [(c, f)]), c, held);
    }
  }

  /** A fresh admission leaves room for one execution of its request. */
  ghost predicate Spare(s: State, c: nat, f: nat) {
    forall k: Request :: s.executed[k] + s.ready[k] + Waiting(s, k) + (if k == (c, f) then 1 else 0) <= s.admitted[k]
  }

  lemma AdmitSpares(s: State, c: nat, f: nat)
    requires Accounted(s)
    ensures Spare(Admit(s, c, f), c, f)
  {
    var s1 := Admit(s, c, f);
    forall k: Request
      ensures s1.executed[k] + s1.ready[k] + Waiting(s1, k) + (if k == (c, f) then 1 else 0) <= s1.admitted[k]
    {
      assert s.executed[k] + s.ready[k] + Waiting(s, k) <= s.admitted[k];
    }
  }

  lemma RoutedAccounts(s1: State, c: nat, f: nat, route: Route)
    requires Spare(s1, c, f) && c !in s1.pending
    ensures Accounted(Routed(s1, c, f, route))
  {
    var s2 := Routed(s1, c, f, route);
    forall k: Request ensures s2.executed[k] + s2.ready[k] + Waiting(s2, k) <= s2.admitted[k] {
      assert s1.executed[k] + s1.ready[k] + Waiting(s1, k) + (if k == (c, f) then 1 else 0) <= s1.admitted[k];
    }
  }

  /** What a request leaves of the tables, fresh or not. */
  lemma RequestFacts(s: State, c: nat, f: nat, route: Route)
    requires Inv(s)
    ensures var (s', answer) := Receive(s, c, f, route);
            && (answer == Admitted <==> !s.closed && !Has(s.fingerprints, c))
            && (answer != Admitted ==> s' == s)
            && (answer == Admitted ==> s' == Routed(Admit(s, c, f), c, f, route))
  {
  }

  lemma RequestKeepsInv(s: State, c: nat, f: nat, route: Route)
    requires Inv(s)
    ensures Inv(Receive(s, c, f, route).0)
  {
    RequestFacts(s, c, f, route);
    if !s.closed && !Has(s.fingerprints, c) {
      AdmitFacts(s, c, f);
      AdmitSpares(s, c, f);
      RoutedKeeps(Admit(s, c, f), c, f, route);
    }
  }

  lemma RoutedKeeps(s1: State, c: nat, f: nat, route: Route)
    requires Distinct(s1.fingerprints) && Distinct(s1.terminals) && |s1.terminals| <= TerminalLimit
    requires (c, f) in s1.fingerprints && forall d | d in s1.pending :: (d, s1.pending[d]) in s1.fingerprints
    requires Spare(s1, c, f) && c !in s1.pending
    ensures Inv(Routed(s1, c, f, route))
  {
    RoutedAccounts(s1, c, f, route);
  }

  lemma DecisionKeepsInv(s: State, c: nat, granted: bool)
    requires Inv(s)
    ensures Inv(Decide(s, c, granted))
  {
    var s1 := Decide(s, c, granted);
    forall k: Request ensures s1.executed[k] + s1.ready[k] + Waiting(s1, k) <= s1.admitted[k] {
      assert s.executed[k] + s.ready[k] + Waiting(s, k) <= s.admitted[k];
    }
  }

  lemma ApprovedKeepsInv(s: State, c: nat, f: nat)
    requires Inv(s) && (c, f) in s.ready
    ensures Inv(Do(s, OnApproved(c, f)))
  {
    var s1 := Do(s, OnApproved(c, f));
    forall k: Request ensures s1.executed[k] + s1.ready[k] + Waiting(s1, k) <= s1.admitted[k] {
      assert s.executed[k] + s.ready[k] + Waiting(s, k) <= s.admitted[k];
    }
  }

  /** The other steps neither admit nor execute nor forget. */
  lemma OtherKeepsInv(s: State, a: Action)
    requires Inv(s) && Enabled(s, a) && (a.OnAbandoned? || a.OnEnd? || a.OnCancel? || a.OnClose?)
    ensures Inv(Do(s, a))
  {
    var s1 := Do(s, a);
    assert s1.fingerprints == s.fingerprints && s1.terminals == s.terminals && s1.executed == s.executed && s1.admitted == s.admitted;
    forall k: Request ensures s1.executed[k] + s1.ready[k] + Waiting(s1, k) <= s1.admitted[k] {
      assert s.executed[k] + s.ready[k] + Waiting(s, k) <= s.admitted[k];
    }
  }

  lemma StepKeepsInv(s: State, a: Action)
    requires Inv(s) && Enabled(s, a)
    ensures Inv(Do(s, a))
  {
    match a
    case OnRequest(c, f, route) => RequestKeepsInv(s, c, f, route);
    case OnDecision(c, granted) => DecisionKeepsInv(s, c, granted);
    case OnTerminal(c, m) =>
      TerminalFacts(s, c, m);
      var s1 := Do(s, a);
      forall k: Request ensures s1.executed[k] + s1.ready[k] + Waiting(s1, k) <= s1.admitted[k] {
        assert s.executed[k] + s.ready[k] + Waiting(s, k) <= s.admitted[k];
      }
    case OnApproved(c, f) => ApprovedKeepsInv(s, c, f);
    case _ => OtherKeepsInv(s, a);
  }

  lemma {:induction false} RunsKeepInv(states: seq<State>, actions: seq<Action>, i: nat)
    requires IsRun(states, actions) && i < |states|
    ensures Inv(states[i])
  {
    if i > 0 {
      RunsKeepInv(states, actions, i - 1);
      StepKeepsInv(states[i - 1], actions[i - 1]);
    }
  }

  // --------------------------------------------------------------- main results

  /** Over a whole run no request is executed more often than it was freshly
      admitted, also while an approval or its sending is under way. */
  lemma ExecutionsNeverExceedAdmissions(states: seq<State>, actions: seq<Action>, i: nat, k: Request)
    requires IsRun(states, actions) && i < |states|
    ensures states[i].executed[k] <= states[i].admitted[k]
    ensures k in states[i].ready ==> states[i].executed[k] < states[i].admitted[k]
  {
    RunsKeepInv(states, actions, i);
    assert states[i].executed[k] + states[i].ready[k] + Waiting(states[i], k) <= states[i].admitted[k];
  }

  /** A request that awaits a decision is never forgotten, whatever else is admitted
      or finished; and terminals stay within their bound. */
  lemma AwaitingIsRemembered(states: seq<State>, actions: seq<Action>, i: nat)
    requires IsRun(states, actions) && i < |states|
    ensures forall c | c in states[i].pending :: (c, states[i].pending[c]) in states[i].fingerprints
    ensures |states[i].terminals| <= TerminalLimit
  {
    RunsKeepInv(states, actions, i);
  }

  /** What is awaiting a decision or in execution, and remembered, stays remembered
      through every step: it cannot be admitted a second time meanwhile. */
  lemma HeldIsKept(s: State, a: Action, e: Request)
    requires Inv(s) && Enabled(s, a)
    requires e in s.fingerprints && e.0 in HeldCalls(s)
    ensures e in Do(s, a).fingerprints
    ensures forall f, route :: Receive(Do(s, a), e.0, f, route).0 == Do(s, a)
  {
    var s' := Do(s, a);
    if a.OnRequest? {
      RequestTables(s, a.call, a.fingerprint, a.route);
    } else if a.OnTerminal? {
      TerminalFacts(s, a.call, a.message);
    }
    assert Has(s'.fingerprints, e.0);
    StepKeepsInv(s, a);
    forall f, route ensures Receive(s', e.0, f, route).0 == s' {
      RequestFacts(s', e.0, f, route);
    }
  }

  lemma RequestTables(s: State, c: nat, f: nat, route: Route)
    requires Inv(s)
    ensures var (s', answer) := Receive(s, c, f, route);
            && (forall e | e in s.fingerprints && e.0 in HeldCalls(s) :: e in s'.fingerprints)
            && if answer == Admitted then
                 |s'.fingerprints| <= FingerprintLimit
                 || (forall e | e in s'.fingerprints :: e.0 == c || e.0 in HeldCalls(s))
               else s' == s
  {
    RequestFacts(s, c, f, route);
    if !s.closed && !Has(s.fingerprints, c) {
      AdmitFacts(s, c, f);
      assert Routed(Admit(s, c, f), c, f, route).fingerprints == Admit(s, c, f).fingerprints;
    }
  }

  predicate Fresh(s: State, a: Action) {
    a.OnRequest? && Receive(s, a.call, a.fingerprint, a.route).1 == Admitted
  }

  /** The fingerprints exceed their limit only while every other remembered call is
      awaiting a decision or in execution; and only an admission adds one. */
  lemma FingerprintsOverflowOnlyWhenBusy(states: seq<State>, actions: seq<Action>, i: nat)
    requires IsRun(states, actions) && i < |actions|
    ensures var s, s', a := states[i], states[i + 1], actions[i];
            if Fresh(s, a) then
              |s'.fingerprints| <= FingerprintLimit
              || (forall e | e in s'.fingerprints :: e.0 == a.call || e.0 in HeldCalls(s))
            else |s'.fingerprints| <= |s.fingerprints|
  {
    RunsKeepInv(states, actions, i);
    var s, a := states[i], actions[i];
    if a.OnRequest? {
      RequestTables(s, a.call, a.fingerprint, a.route);
    } else if a.OnTerminal? {
      TerminalFacts(s, a.call, a.message);
    }
  }

  /** So at any time the table is within its limit, or no longer than it was right
      after some admission that found everything else held. */
  lemma {:induction false} FingerprintBound(states: seq<State>, actions: seq<Action>, i: nat) returns (j: nat)
    requires IsRun(states, actions) && i < |states|
    ensures j <= i
    ensures |states[i].fingerprints| <= FingerprintLimit || |states[i].fingerprints| <= |HeldCalls(states[j])| + 1
  {
    j := i;
    if i > 0 && |states[i].fingerprints| > FingerprintLimit {
      FingerprintsOverflowOnlyWhenBusy(states, actions, i - 1);
      if Fresh(states[i - 1], actions[i - 1]) {
        RunsKeepInv(states, actions, i);
        j := i - 1;
        KeysFit(states[i].fingerprints, HeldCalls(states[j]) + {actions[i - 1].call});
      } else {
        j := FingerprintBound(states, actions, i - 1);
      }
    }
  }

  lemma {:induction false} KeysFit(table: seq<(nat, nat)>, keys: set<nat>)
    requires Distinct(table) && forall e | e in table :: e.0 in keys
    ensures |table| <= |keys|
  {
    if table != [] {
      var rest := table[1..];
      assert forall j | 0 <= j < |rest| :: rest[j] == table[j + 1];
      assert table[0] in table;
      KeysFit(rest, keys - {table[0].0});
    }
  }

  /** A remembered call that neither awaits a decision nor executes, which includes
      one whose approval is being recorded or sent, is forgotten by the admission of
      another exactly when the table is then over its limit by more than the number
      of free calls before it. From then on a redelivery is admitted as fresh. */
  lemma DecisionWindow(s: State, c: nat, f: nat, route: Route, i: nat)
    requires Inv(s) && !s.closed && !Has(s.fingerprints, c)
    requires i < |s.fingerprints| && s.fingerprints[i].0 !in HeldCalls(s)
    ensures var s', d := Receive(s, c, f, route).0, s.fingerprints[i].0;
            && (!Has(s'.fingerprints, d) <==> |s.fingerprints| >= FingerprintLimit + FreeBefore(s.fingerprints, i, c, HeldCalls(s)))
            && forall g, again :: Receive(s', d, g, again).1 == Admitted <==> !Has(s'.fingerprints, d)
  {
    var s', d, held := Receive(s, c, f, route).0, s.fingerprints[i].0, HeldCalls(s);
    var t := TablesOf(s).(fingerprints := s.fingerprints + [(c, f)]);
    WithoutAbsent(s.fingerprints, c);
    assert t.fingerprints[i] == s.fingerprints[i];
    SameCount(t.fingerprints, s.fingerprints, i, c, held);
    ForgottenExactlyWhen(t, c, held, i);
    RequestFacts(s, c, f, route);
    assert s'.fingerprints == TrimFingerprints(t, c, held).fingerprints;
    RequestKeepsInv(s, c, f, route);
    forall g, again ensures Receive(s', d, g, again).1 == Admitted <==> !Has(s'.fingerprints, d) {
      RequestFacts(s', d, g, again);
    }
  }

  ghost predicate RunTo(states: seq<State>, actions: seq<Action>, s: State) {
    IsRun(states, actions) && states[|states| - 1] == s
  }

  ghost predicate Reachable(s: State) {
    exists states, actions :: RunTo(states, actions, s)
  }

  lemma ReachStep(s: State, a: Action)
    requires Reachable(s) && Enabled(s, a)
    ensures Reachable(Do(s, a))
  {
    var states, actions :| RunTo(states, actions, s);
    var states', actions' := states + [Do(s, a)], actions + [a];
    forall i | 0 <= i < |actions'|
      ensures Enabled(states'[i], actions'[i]) && states'[i + 1] == Do(states'[i], actions'[i])
    {
      if i < |actions| {
        assert states'[i] == states[i] && states'[i + 1] == states[i + 1] && actions'[i] == actions[i];
      }
    }
    assert RunTo(states', actions', Do(s, a));
  }

  lemma ReachableInv(s: State)
    requires Reachable(s)
    ensures Inv(s)
  {
    var states, actions :| RunTo(states, actions, s);
    RunsKeepInv(states, actions, |states| - 1);
  }

  /** Request 0 awaits its decision; the requests from 1 to k were refused, and their
      refusals could not be sent. */
  ghost predicate Filled(s: State, k: nat) {
    && Reachable(s) && !s.closed
    && |s.fingerprints| == k + 1 && (forall j | 0 <= j <= k :: s.fingerprints[j] == (j, 0))
    && s.pending == map[0 := 0] && s.cancellations == map[]
    && s.ready == multiset{} && s.executed == multiset{} && s.admitted[(0, 0)] == 1
  }

  lemma {:induction false} Fill(k: nat) returns (s: State)
    requires k < FingerprintLimit
    ensures Filled(s, k)
  {
    if k == 0 {
      assert RunTo([Initial()], [], Initial());
      s := Do(Initial(), OnRequest(0, 0, Prompt));
      ReachStep(Initial(), OnRequest(0, 0, Prompt));
    } else {
      var s0 := Fill(k - 1);
      ReachableInv(s0);
      assert !Has(s0.fingerprints, k);
      RequestFacts(s0, k, 0, Reject);
      WithoutAbsent(s0.fingerprints, k);
      s := Do(s0, OnRequest(k, 0, Reject));
      assert s.fingerprints == s0.fingerprints + [(k, 0)];
      ReachStep(s0, OnRequest(k, 0, Reject));
    }
  }

  /** The table is full, the decision on request 0 has been taken, and one more request
      has made the controller forget it. */
  lemma Forgotten() returns (s: State)
    ensures Reachable(s) && !s.closed && !Has(s.fingerprints, 0) && s.ready == multiset{(0, 0)} && s.executed == multiset{}
    ensures s.admitted[(0, 0)] == 1
  {
    var s0 := Fill(FingerprintLimit - 1);
    var s1 := Do(s0, OnDecision(0, true));
    ReachStep(s0, OnDecision(0, true));
    ReachableInv(s1);
    assert s1.fingerprints[0].0 == 0 && !Has(s1.fingerprints, FingerprintLimit);
    assert HeldCalls(s1) == {};
    RequestFacts(s1, FingerprintLimit, 0, Reject);
    DecisionWindow(s1, FingerprintLimit, 0, Reject, 0);
    s := Do(s1, OnRequest(FingerprintLimit, 0, Reject));
    ReachStep(s1, OnRequest(FingerprintLimit, 0, Reject));
  }

  /** So the bound by admissions is the strongest that holds: a request delivered twice,
      the second time in the window, is prompted for, approved and executed twice. */
  lemma ExecutedTwice() returns (s: State)
    ensures Reachable(s) && s.executed[(0, 0)] == s.admitted[(0, 0)] == 2
  {
    var s0 := Forgotten();
    ReachableInv(s0);
    RequestFacts(s0, 0, 0, Prompt);
    var s1 := Do(s0, OnRequest(0, 0, Prompt));
    ReachStep(s0, OnRequest(0, 0, Prompt));
    var s2 := Do(s1, OnDecision(0, true));
    ReachStep(s1, OnDecision(0, true));
    assert s2.ready == multiset{(0, 0), (0, 0)};
    var s3 := Do(s2, OnApproved(0, 0));
    ReachStep(s2, OnApproved(0, 0));
    s := Do(s3, OnApproved(0, 0));
    ReachStep(s3, OnApproved(0, 0));
  }

  /** Once closed, the controller admits nothing, decides nothing and has nothing
      pending for the rest of the run, and closing it again changes nothing. */
  lemma {:induction false} ClosedForGood(states: seq<State>, actions: seq<Action>, i: nat, j: nat)
    requires IsRun(states, actions) && i <= j < |states| && states[i].closed
    ensures states[j].closed && states[j].pending == map[] && Close(states[j]) == states[j]
    ensures states[j].admitted == states[i].admitted && states[j].ready <= states[i].ready
  {
    if i < j {
      ClosedForGood(states, actions, i, j - 1);
      ClosedStep(states[j - 1], actions[j - 1]);
    } else {
      ClosedHasNothingPending(states, actions, i);
    }
  }

  lemma {:induction false} ClosedHasNothingPending(states: seq<State>, actions: seq<Action>, i: nat)
    requires IsRun(states, actions) && i < |states| && states[i].closed
    ensures states[i].pending == map[]
  {
    if i > 0 {
      if states[i - 1].closed {
        ClosedHasNothingPending(states, actions, i - 1);
      }
      ClosedStep(states[i - 1], actions[i - 1]);
    }
  }

  lemma ClosedStep(s: State, a: Action)
    requires s.closed ==> s.pending == map[]
    ensures Do(s, a).closed ==> Do(s, a).pending == map[]
    ensures s.closed ==> Do(s, a).closed && Do(s, a).admitted == s.admitted && Do(s, a).ready <= s.ready
  {
    if a.OnRequest? && !s.closed {
      assert !Receive(s, a.call, a.fingerprint, a.route).0.closed;
    }
  }

  /** What becomes of a request: an open controller admits an unknown call and routes it;
      a known one gets the message remembered for it, if the request is the same. */
  ghost predicate Arrives(s: State, s': State, answer: Answer, c: nat, f: nat, route: Route) {
    var one: multiset<Request> := multiset{(c, f)};
    if s.closed then answer == Ignored && s' == s
    else if Has(s.fingerprints, c) then
      && s' == s && answer != Admitted
      && (Distinct(s.fingerprints) && Distinct(s.terminals) ==>
            forall m: nat :: answer == Resent(m) <==> (c, f) in s.fingerprints && (c, m) in s.terminals)
    else
      && answer == Admitted && !s'.closed && s'.admitted == s.admitted + one
      && (Distinct(s.fingerprints) ==> s'.fingerprints != [] && s'.fingerprints[|s'.fingerprints| - 1] == (c, f))
      && match route
         case Reject => s' == s.(admitted := s'.admitted, fingerprints := s'.fingerprints, terminals := s'.terminals)
         case Execute =>
           && s'.executed == s.executed + one && s'.running == s.running + one && s'.cancellations == s.cancellations[c := false]
           && s'.ready == s.ready && s'.pending == s.pending
         case Approve =>
           && s'.ready == s.ready + one && s'.pending == s.pending
           && s'.executed == s.executed && s'.running == s.running && s'.cancellations == s.cancellations
         case Prompt =>
           && s'.pending == s.pending[c := f] && s'.ready == s.ready
           && s'.executed == s.executed && s'.running == s.running && s'.cancellations == s.cancellations
  }

  lemma RequestArrives(s: State, c: nat, f: nat, route: Route)
    ensures var (s', answer) := Receive(s, c, f, route); Arrives(s, s', answer, c, f, route)
  {
    if !s.closed && Has(s.fingerprints, c) {
      if Distinct(s.fingerprints) && Distinct(s.terminals) {
        OnlyEntry(s.fingerprints, c);
        OnlyEntry(s.terminals, c);
      }
    } else if !s.closed {
      NewestIsRemembered(TablesOf(s), c, f, HeldCalls(s));
      var admitted := Admit(s, c, f);
      assert admitted == s.(admitted := admitted.admitted, fingerprints := admitted.fingerprints, terminals := admitted.terminals);
    }
  }

  lemma OnlyEntry(table: seq<(nat, nat)>, key: nat)
    requires Distinct(table)
    ensures forall v: nat :: (key, v) in table <==> Lookup(table, key) == Some(v)
  {
    var found := Lookup(table, key);
    forall v: nat | (key, v) in table ensures found == Some(v) {
      var i :| 0 <= i < |table| && table[i] == (key, v);
      assert Has(table, key);
      var j :| 0 <= j < |table| && table[j] == (key, found.value);
      assert i == j;
    }
  }

  // ------------------------------------------------------------- the object itself

  /** The controller's fields, updated in place; each method is one section between
      two awaits and has exactly the effect given above. */
  class Controller {
    var pending: map<nat, nat>
    var fingerprints: seq<(nat, nat)>
    var terminals: seq<(nat, nat)>
    var cancellations: map<nat, bool>
    var closed: bool
    ghost var ready: multiset<Request>
    ghost var running: multiset<Request>
    ghost var admitted: multiset<Request>
    ghost var executed: multiset<Request>

    ghost function View(): State
      reads this
    {
      State(pending, fingerprints, terminals, cancellations, closed, ready, running, admitted, executed)
    }

    constructor ()
      ensures View() == Initial()
    {
      pending, fingerprints, terminals, cancellations, closed := map[], [], [], map[], false;
      ready, running, admitted, executed := multiset{}, multiset{}, multiset{}, multiset{};
    }

    /** The generator expression of _remember_fingerprint: the first key that may go. */
    method Removable(call: nat) returns (i: nat)
      ensures i == FirstFree(fingerprints, call, HeldCalls(View()))
    {
      i := 0;
      while i < |fingerprints| && (fingerprints[i].0 == call || fingerprints[i].0 in pending || fingerprints[i].0 in cancellations)
        invariant i <= |fingerprints|
        invariant FirstFree(fingerprints, call, HeldCalls(View())) == i + FirstFree(fingerprints[i..], call, HeldCalls(View()))
      {
        assert fingerprints[i..][1..] == fingerprints[i + 1..];
        i := i + 1;
      }
    }

    method RememberFingerprint(call: nat, fingerprint: nat)
      modifies this`fingerprints, this`terminals
      ensures old(Distinct(fingerprints)) ==> fingerprints != [] && fingerprints[|fingerprints| - 1] == (call, fingerprint)
      ensures Tables(fingerprints, terminals)
              == WithFingerprint(old(TablesOf(View())), call, fingerprint, old(HeldCalls(View())))
    {
      NewestIsRemembered(TablesOf(View()), call, fingerprint, HeldCalls(View()));
      fingerprints := Without(fingerprints, call) + [(call, fingerprint)];
      ghost var start, held := TablesOf(View()), HeldCalls(View());
      while |fingerprints| > FingerprintLimit
        invariant TrimFingerprints(start, call, held) == TrimFingerprints(Tables(fingerprints, terminals), call, held)
        decreases |fingerprints|
      {
        var i := Removable(call);
        if i == |fingerprints| {
          break;
        }
        var key := fingerprints[i].0;
        assert Has(fingerprints, key);
        WithoutFacts(fingerprints, key);
        fingerprints, terminals := Without(fingerprints, key), Without(terminals, key);
      }
    }

    method RememberTerminal(call: nat, message: nat)
      modifies this`fingerprints, this`terminals
      ensures View() == Do(old(View()), OnTerminal(call, message))
      ensures terminals != [] && terminals[|terminals| - 1] == (call, message)
    {
      TerminalIsRemembered(TablesOf(View()), call, message, HeldCalls(View()));
      terminals := Without(terminals, call) + [(call, message)];
      ghost var start, held := TablesOf(View()), HeldCalls(View());
      while |terminals| > TerminalLimit
        invariant TrimTerminals(start, held) == TrimTerminals(Tables(fingerprints, terminals), held)
      {
        var expired := terminals[0].0;
        terminals := terminals[1..];
        if expired !in pending && expired !in cancellations {
          fingerprints := Without(fingerprints, expired);
        }
      }
    }

    method HandleServerEvent(call: nat, fingerprint: nat, route: Route) returns (answer: Answer)
      modifies this
      ensures (View(), answer) == Receive(old(View()), call, fingerprint, route)
      ensures Arrives(old(View()), View(), answer, call, fingerprint, route)
    {
      RequestArrives(View(), call, fingerprint, route);
      if closed {
        return Ignored;
      }
      var previous := Lookup(fingerprints, call);
      if previous.Some? {
        var cached := Lookup(terminals, call);
        return if previous.value == fingerprint && cached.Some? then Resent(cached.value) else Ignored;
      }
      AdmitRequest(call, fingerprint, route);
      return Admitted;
    }

    method RememberRequest(call: nat, fingerprint: nat)
      modifies this`fingerprints, this`terminals, this`admitted
      ensures View() == Admit(old(View()), call, fingerprint)
    {
      RememberFingerprint(call, fingerprint);
      admitted := admitted + multiset{(call, fingerprint)};
    }

    /** The rest of it, for a call that is not known. */
    method AdmitRequest(call: nat, fingerprint: nat, route: Route)
      modifies this
      ensures View() == Routed(Admit(old(View()), call, fingerprint), call, fingerprint, route)
    {
      RememberRequest(call, fingerprint);
      match route {
        case Reject =>
        case Execute => BeginExecution(call, fingerprint);
        case Approve => ready := ready + multiset{(call, fingerprint)};
        case Prompt => pending := pending[call := fingerprint];
      }
    }

    /** `granted` covers the decisions that lead on to execution. */
    method Decide(call: nat, granted: bool) returns (request: Option<nat>)
      modifies this`pending, this`ready
      ensures View() == Do(old(View()), OnDecision(call, granted))
      ensures request == if call in old(pending) && !closed then Some(old(pending)[call]) else None
      ensures pending == old(pending) - {call}
      ensures ready == old(ready) + (if request.Some? && granted then multiset{(call, request.value)} else multiset{})
    {
      if call !in pending {
        return None;
      }
      request := Some(pending[call]);
      pending := pending - {call};
      if closed {
        return None;
      }
      if granted {
        ready := ready + multiset{(call, request.value)};
      }
    }

    method BeginExecution(call: nat, fingerprint: nat)
      modifies this`cancellations, this`running, this`executed
      ensures View() == Begin(old(View()), call, fingerprint)
      ensures cancellations == old(cancellations)[call := false]
      ensures running == old(running) + multiset{(call, fingerprint)} && executed == old(executed) + multiset{(call, fingerprint)}
    {
      cancellations := cancellations[call := false];
      running := running + multiset{(call, fingerprint)};
      executed := executed + multiset{(call, fingerprint)};
    }

    /** The finally clause of _execute. */
    method FinishExecution(call: nat, fingerprint: nat)
      modifies this`cancellations, this`running
      ensures View() == EndExecution(old(View()), call, fingerprint)
      ensures cancellations == old(cancellations) - {call} && running == old(running) - multiset{(call, fingerprint)}
    {
      cancellations := cancellations - {call};
      running := running - multiset{(call, fingerprint)};
    }

    /** `supported`: does the tool's definition allow cancellation? */
    method Cancel(call: nat, supported: bool) returns (requested: bool)
      modifies this`cancellations
      ensures View() == if supported then Do(old(View()), OnCancel(call)) else old(View())
      ensures requested == (!closed && call in old(cancellations) && supported && !old(cancellations)[call])
      ensures cancellations == if requested then old(cancellations)[call := true] else old(cancellations)
    {
      if closed || call !in cancellations || !supported || cancellations[call] {
        assert !closed && call in cancellations && cancellations[call] ==> cancellations[call := true] == cancellations;
        return false;
      }
      cancellations := cancellations[call := true];
      return true;
    }

    method Close()
      modifies this`closed, this`cancellations, this`pending
      ensures View() == Do(old(View()), OnClose)
      ensures closed
      ensures old(closed) ==> View() == old(View())
      ensures !old(closed) ==> pending == map[] && cancellations.Keys == old(cancellations.Keys)
      ensures !old(closed) ==> forall c | c in cancellations :: cancellations[c]
    {
      if closed {
        return;
      }
      closed := true;
      cancellations := map c | c in cancellations :: true;
      pending := map[];
    }
  }
}
