/**
  One WebSocket connection's subscriptions as a state machine: what the local symbol set, the parked
  changes and the server's stream set are after every run of updates, connects and disconnects.
 */
module ShardModel {

  // ----- stream names ------------------------------------------------------------------------

  function LowerChar(c: char): char {
    if 'A' <= c <= 'Z' then c + 32 as char else c
  }

  function Lower(s: string): string {
    seq(|s|, i requires 0 <= i < |s| => LowerChar(s[i]))
  }

  function Name(symbol: string, streamType: string): string {
    Lower(symbol) + "@" + streamType
  }

  function Params(symbols: set<string>, types: seq<string>): set<string> {
    set x, t | x in symbols && t in types :: Name(x, t)
  }

  /** No two symbols share a stream name. */
  ghost predicate NamesDistinct(symbols: set<string>, types: seq<string>) {
    forall x, y, t, u | x in symbols && y in symbols && t in types && u in types && Name(x, t) == Name(y, u) :: x == y
  }

  lemma {:induction false} ParamsUnion(a: set<string>, b: set<string>, types: seq<string>)
    ensures Params(a + b, types) == Params(a, types) + Params(b, types)
  {
  }

  lemma {:induction false} ParamsMinus(a: set<string>, b: set<string>, types: seq<string>)
    requires NamesDistinct(a + b, types)
    ensures Params(a - b, types) == Params(a, types) - Params(b, types)
  {
    forall n | n in Params(a, types) - Params(b, types)
      ensures n in Params(a - b, types)
    {
      var x, t :| x in a && t in types && n == Name(x, t);
      assert Name(x, t) !in Params(b, types);
    }
    forall n | n in Params(a - b, types)
      ensures n in Params(a, types) - Params(b, types)
    {
      var x, t :| x in a - b && t in types && n == Name(x, t);
      assert forall y, u | y in b && u in types :: Name(y, u) != n by {
        assert x in a + b;
        assert forall y | y in b :: y in a + b && y != x;
      }
    }
  }

  /** Distinct names are exactly what makes "unsubscribe `b`" leave the streams of the other symbols alone. */
  lemma {:induction false} UnsubscribeNeedsDistinctNames(symbols: set<string>, types: seq<string>)
    ensures NamesDistinct(symbols, types)
            <==> forall b: set<string> | b <= symbols ::
                   Params(symbols - b, types) == Params(symbols, types) - Params(b, types)
  {
    if NamesDistinct(symbols, types) {
      forall b: set<string> | b <= symbols
        ensures Params(symbols - b, types) == Params(symbols, types) - Params(b, types)
      {
        assert symbols + b == symbols;
        ParamsMinus(symbols, b, types);
      }
    } else {
      var x, y, t, u :| x in symbols && y in symbols && t in types && u in types && Name(x, t) == Name(y, u) && x != y;
      var b := {y};
      assert Name(x, t) in Params(symbols - b, types);
      assert Name(y, u) in Params(b, types);
      assert Params(symbols - b, types) != Params(symbols, types) - Params(b, types);
    }
  }

  /** Symbols that differ after lower-casing and contain no '@' have distinct names. */
  lemma {:induction false} PlainSymbolsAreDistinct(symbols: set<string>, types: seq<string>)
    requires forall x, y | x in symbols && y in symbols && Lower(x) == Lower(y) :: x == y
    requires forall x | x in symbols :: '@' !in x
    ensures NamesDistinct(symbols, types)
  {
    forall x, y, t, u | x in symbols && y in symbols && t in types && u in types && Name(x, t) == Name(y, u)
      ensures x == y
    {
      NoAtSign(x, |Lower(y)|, Name(y, u));
      NoAtSign(y, |Lower(x)|, Name(x, t));
      assert Name(x, t)[..|x|] == Lower(x) && Name(y, u)[..|y|] == Lower(y);
    }
  }

  lemma {:induction false} NoAtSign(x: string, k: nat, n: string)
    requires '@' !in x && k < |n| && n[k] == '@'
    ensures k < |x| ==> Lower(x)[k] != n[k]
  {
  }

  /** `n` is `x` with its ASCII capitals made small, then '@', then `t`; characters are compared by their codes. */
  ghost predicate Spells(n: string, x: string, t: string) {
    && |n| == |x| + 1 + |t|
    && (forall i | 0 <= i < |x| ::
          && n[i] as int == (if 65 <= x[i] as int <= 90 then x[i] as int + 32 else x[i] as int)
          && !(65 <= n[i] as int <= 90))
    && n[|x|] == '@'
    && n[|x| + 1..] == t
  }

  /** The stream name of a symbol and a type is the one string that spells them. */
  lemma {:induction false} NameIsSpelled(n: string, x: string, t: string)
    ensures n == Name(x, t) <==> Spells(n, x, t)
  {
    if Spells(n, x, t) {
      var m := Name(x, t);
      assert |n| == |m| && n[|x| + 1..] == t == m[|x| + 1..];
      forall i | 0 <= i < |n|
        ensures n[i] == m[i]
      {
        if i > |x| {
          assert n[i] == n[|x| + 1..][i - |x| - 1] && m[i] == m[|x| + 1..][i - |x| - 1];
        }
      }
    }
  }

  // ----- the machine ----------------------------------------------------------------------------

  datatype ConnectionState =
    Disconnected | Connecting | Connected | Subscribing | Healthy | Reconnecting | SoftReconnecting | Failed

  /** Where the connection loop is: between attempts, dialling, subscribing, or reading messages. */
  datatype Phase = Idle | Dialing | Opening | Listening

  /**
    `hasSocket` says that the socket field is set, `live` that this socket is open, and `server` is the set of
    streams the server sends over it.
   */
  datatype Shard = Shard(
    symbols: set<string>, pendingAdd: set<string>, pendingRemove: set<string>,
    state: ConnectionState, phase: Phase, hasSocket: bool, live: bool, server: set<string>)

  datatype Op =
    | Update(add: set<string>, remove: set<string>)
    | Dial
    | Open
    | Ready
    | Lost(clean: bool)
    | SoftReconnect

  function Started(symbols: set<string>): Shard {
    Shard(symbols, {}, {}, Disconnected, Idle, false, false, {})
  }

  predicate Enabled(s: Shard, op: Op) {
    match op
    case Update(_, _) => true
    case Dial => s.phase == Idle
    case Open => s.phase == Dialing
    case Ready => s.phase == Opening && s.live
    case Lost(_) => s.phase != Idle
    case SoftReconnect => true
  }

  function Step(s: Shard, op: Op, types: seq<string>): Shard {
    match op
    case Update(add0, remove0) =>
      var add, remove := add0 - s.symbols, remove0 * s.symbols;
      var s' := s.(symbols := s.symbols + add - remove);
      if !s.hasSocket || (s.state != Healthy && s.state != Connected) then
        s'.(pendingAdd := s.pendingAdd + add, pendingRemove := s.pendingRemove + remove)
      else
        s'.(server := s.server + Params(add, types) - Params(remove, types))
    case Dial => s.(state := Connecting, phase := Dialing)
    case Open =>
      var symbols := s.symbols + s.pendingAdd - s.pendingRemove;
      Shard(symbols, {}, {}, Subscribing, Opening, true, true, Params(symbols, types))
    case Ready => s.(state := Healthy, phase := Listening)
    case Lost(clean) =>
      s.(state := Reconnecting, phase := Idle, live := false, server := {},
         hasSocket := s.hasSocket && !(clean && s.phase == Listening))
    case SoftReconnect =>
      if s.hasSocket then s.(state := SoftReconnecting, live := false, server := {})
      else s.(state := SoftReconnecting)
  }

  function Run(symbols: set<string>, ops: seq<Op>, types: seq<string>): Shard {
    if ops == [] then Started(symbols) else Step(Run(symbols, ops[..|ops| - 1], types), ops[|ops| - 1], types)
  }

  ghost predicate Possible(symbols: set<string>, ops: seq<Op>, types: seq<string>) {
    ops == [] ||
    (Possible(symbols, ops[..|ops| - 1], types) && Enabled(Run(symbols, ops[..|ops| - 1], types), ops[|ops| - 1]))
  }

  // ----- what the callers asked for ----------------------------------------------------------------

  /**
    Kept by an observer of the calls alone: `wanted` is what add and remove requests add up to, `removed`
    what was taken out since the connection was last healthy, and `lost` what was taken out and put back
    within one outage and not touched since.
   */
  datatype Demand = Demand(wanted: set<string>, removed: set<string>, lost: set<string>, online: bool)

  function Note(d: Demand, op: Op): Demand {
    match op
    case Update(add, remove) =>
      Demand(d.wanted - remove + add,
             if d.online then d.removed else d.removed + remove * (d.wanted - d.lost),
             d.lost - add - remove, d.online)
    case Dial => d.(online := false)
    case Open => Demand(d.wanted, {}, d.lost + d.wanted * d.removed, false)
    case Ready => d.(online := true)
    case Lost(_) => d.(online := false)
    case SoftReconnect => d.(online := false)
  }

  function DemandOf(symbols: set<string>, ops: seq<Op>): Demand {
    if ops == [] then Demand(symbols, {}, {}, false)
    else Note(DemandOf(symbols, ops[..|ops| - 1]), ops[|ops| - 1])
  }

  function Mentioned(symbols: set<string>, ops: seq<Op>): set<string> {
    if ops == [] then symbols
    else
      var op := ops[|ops| - 1];
      Mentioned(symbols, ops[..|ops| - 1]) + if op.Update? then op.add else {}
  }

  /** No request adds and removes the same symbol at once. */
  ghost predicate Unambiguous(ops: seq<Op>) {
    forall i | 0 <= i < |ops| && ops[i].Update? :: ops[i].add !! ops[i].remove
  }

  /** Connecting and resubscribing is one step as far as updates are concerned. */
  ghost predicate AtomicConnect(symbols: set<string>, ops: seq<Op>, types: seq<string>) {
    forall i | 0 <= i < |ops| && ops[i].Update? :: Run(symbols, ops[..i], types).phase != Opening
  }

  /** What holds of a shard in every run, whenever its updates come. */
  ghost predicate Coherent(s: Shard) {
    && s.state != Connected
    && (s.state == Healthy ==> s.phase == Listening && s.live && s.hasSocket)
    && (s.phase == Opening ==> s.hasSocket)
    && (s.live ==> s.phase == Opening || (s.phase == Listening && s.state == Healthy))
  }

  lemma {:induction false} CoherentStep(s: Shard, op: Op, types: seq<string>)
    requires Coherent(s) && Enabled(s, op)
    ensures Coherent(Step(s, op, types))
  {
  }

  lemma {:induction false} RunCoherent(symbols: set<string>, ops: seq<Op>, types: seq<string>)
    requires Possible(symbols, ops, types)
    ensures Coherent(Run(symbols, ops, types))
  {
    if ops != [] {
      RunCoherent(symbols, ops[..|ops| - 1], types);
      CoherentStep(Run(symbols, ops[..|ops| - 1], types), ops[|ops| - 1], types);
    }
  }

  // ----- local symbols against wanted symbols -------------------------------------------------------

  /**
    The books of all requests, parked or sent: `lost` is wanted and not local, `back` is local and no longer wanted.
    A reconnect replays the parked requests, adds first, whatever was asked for since.
   */
  datatype Account = Account(
    wanted: set<string>, lost: set<string>, back: set<string>,
    parkedAdd: set<string>, parkedRemove: set<string>, online: bool)
  {
    function Local(): set<string> {
      wanted - lost + back
    }
  }

  function Post(a: Account, op: Op): Account {
    match op
    case Update(add, remove) =>
      Account(a.wanted - remove + add, a.lost - add - remove, a.back - add - remove,
              if a.online then a.parkedAdd else a.parkedAdd + (add - a.Local()),
              if a.online then a.parkedRemove else a.parkedRemove + remove * a.Local(), a.online)
    case Open =>
      Account(a.wanted, a.lost - a.parkedAdd + a.wanted * a.parkedRemove,
              a.back + (a.parkedAdd - a.wanted) - a.parkedRemove, {}, {}, false)
    case Ready => a.(online := true)
    case _ => a.(online := false)
  }

  function AccountOf(symbols: set<string>, ops: seq<Op>): Account {
    if ops == [] then Account(symbols, {}, {}, {}, {}, false)
    else Post(AccountOf(symbols, ops[..|ops| - 1]), ops[|ops| - 1])
  }

  ghost predicate Balanced(s: Shard, a: Account) {
    && s.symbols == a.Local()
    && a.lost <= a.wanted && a.back !! a.wanted
    && s.pendingAdd == a.parkedAdd && s.pendingRemove == a.parkedRemove
    && (a.online <==> s.state == Healthy)
  }

  lemma {:induction false} UpdateBalanced(s: Shard, a: Account, add: set<string>, remove: set<string>,
      types: seq<string>)
    requires Coherent(s) && Balanced(s, a) && add !! remove
    ensures Balanced(Step(s, Update(add, remove), types), Post(a, Update(add, remove)))
  {
    hide Params;
    var s', a' := Step(s, Update(add, remove), types), Post(a, Update(add, remove));
    assert s'.symbols == s.symbols + (add - s.symbols) - (remove * s.symbols);
    assert s'.symbols == a'.wanted - a'.lost + a'.back;
  }

  lemma {:induction false} OpenBalanced(s: Shard, a: Account, types: seq<string>)
    requires Balanced(s, a)
    ensures Balanced(Step(s, Open, types), Post(a, Open))
  {
    hide Params;
    var a' := Post(a, Open);
    assert s.symbols + s.pendingAdd - s.pendingRemove == a'.wanted - a'.lost + a'.back;
  }

  lemma {:induction false} BalancedStep(s: Shard, a: Account, op: Op, types: seq<string>)
    requires Coherent(s) && Balanced(s, a) && Enabled(s, op) && (op.Update? ==> op.add !! op.remove)
    ensures Balanced(Step(s, op, types), Post(a, op))
  {
    hide Params;
    if op.Update? {
      UpdateBalanced(s, a, op.add, op.remove, types);
    } else if op.Open? {
      OpenBalanced(s, a, types);
    }
  }

  /**
    Over every run, whenever updates land: the local symbols are the wanted ones without the lost ones and with those
    that came back; hence they are the wanted ones iff there are none of either.
   */
  lemma {:induction false} SymbolsAccounted(symbols: set<string>, ops: seq<Op>, types: seq<string>)
    requires Possible(symbols, ops, types) && Unambiguous(ops)
    ensures var s, a := Run(symbols, ops, types), AccountOf(symbols, ops);
            && Balanced(s, a)
            && (s.symbols == a.wanted <==> a.lost == {} && a.back == {})
  {
    if ops != [] {
      var front := ops[..|ops| - 1];
      RunCoherent(symbols, front, types);
      SymbolsAccounted(symbols, front, types);
      BalancedStep(Run(symbols, front, types), AccountOf(symbols, front), ops[|ops| - 1], types);
    }
  }

  /** With atomic connects nothing comes back, and what is lost follows the simpler rule. */
  ghost predicate SameBooks(a: Account, d: Demand) {
    && a.wanted == d.wanted && a.lost == d.lost && a.back == {} && a.parkedRemove == d.removed
    && a.parkedAdd - a.parkedRemove <= a.Local()
    && a.online == d.online
  }

  /** Nothing is parked while the subscribe messages are on their way or the connection is healthy. */
  ghost predicate NothingParked(s: Shard) {
    s.phase == Opening || s.state == Healthy ==> s.pendingAdd == {} && s.pendingRemove == {}
  }

  lemma {:induction false} SameBooksStep(a: Account, d: Demand, op: Op)
    requires SameBooks(a, d) && a.lost <= a.wanted
    requires op.Update? ==> op.add !! op.remove
    requires op.Update? && a.online ==> a.parkedAdd == {} && a.parkedRemove == {}
    ensures SameBooks(Post(a, op), Note(d, op))
  {
    if op.Open? {
      assert a.lost - a.parkedAdd + a.wanted * a.parkedRemove == a.lost + a.wanted * a.parkedRemove;
    }
  }

  lemma {:induction false} AtomicBooks(symbols: set<string>, ops: seq<Op>, types: seq<string>)
    requires Possible(symbols, ops, types) && AtomicConnect(symbols, ops, types) && Unambiguous(ops)
    ensures SameBooks(AccountOf(symbols, ops), DemandOf(symbols, ops)) && NothingParked(Run(symbols, ops, types))
  {
    if ops != [] {
      var front, op := ops[..|ops| - 1], ops[|ops| - 1];
      assert forall i | 0 <= i < |front| :: front[..i] == ops[..i];
      AtomicBooks(symbols, front, types);
      SymbolsAccounted(symbols, front, types);
      RunCoherent(symbols, front, types);
      SameBooksStep(AccountOf(symbols, front), DemandOf(symbols, front), op);
      hide Params, SameBooks, Post, Note, Balanced;
      Parking(Run(symbols, front, types), op, types);
    }
  }

  lemma {:induction false} Parking(s: Shard, op: Op, types: seq<string>)
    requires Coherent(s) && Enabled(s, op) && NothingParked(s) && (op.Update? ==> s.phase != Opening)
    ensures NothingParked(Step(s, op, types))
  {
  }

  /**
    With connecting and resubscribing as one step, the local symbols are the wanted ones minus those removed and then
    re-added within one outage and not touched since; hence they are the wanted ones iff there are none of those.
   */
  lemma {:induction false} Reconciliation(symbols: set<string>, ops: seq<Op>, types: seq<string>)
    requires Possible(symbols, ops, types) && AtomicConnect(symbols, ops, types) && Unambiguous(ops)
    ensures var s, d := Run(symbols, ops, types), DemandOf(symbols, ops);
            && s.symbols == d.wanted - d.lost && d.lost <= d.wanted
            && (s.symbols == d.wanted <==> d.lost == {})
  {
    SymbolsAccounted(symbols, ops, types);
    AtomicBooks(symbols, ops, types);
    hide Run, AccountOf, DemandOf;
  }

  // ----- the server's streams against local symbols ---------------------------------------------------

  /** Since the connection came up: local symbols the server was not asked for, and streams it was not told to stop. */
  datatype Wire = Wire(missing: set<string>, stale: set<string>)

  function Track(w: Wire, s: Shard, op: Op): Wire {
    match op
    case Update(add0, remove0) =>
      var add, remove := add0 - s.symbols, remove0 * s.symbols;
      if s.state == Healthy then Wire(w.missing - remove, w.stale - add)
      else Wire(w.missing - remove + (add - w.stale), w.stale - add + (remove - w.missing))
    case Open => Wire({}, {})
    case _ => w
  }

  function WireOf(symbols: set<string>, ops: seq<Op>, types: seq<string>): Wire {
    if ops == [] then Wire({}, {})
    else
      var front := ops[..|ops| - 1];
      Track(WireOf(symbols, front, types), Run(symbols, front, types), ops[|ops| - 1])
  }

  function Served(s: Shard, w: Wire): set<string> {
    s.symbols - w.missing + w.stale
  }

  ghost predicate Tracked(s: Shard, w: Wire, types: seq<string>) {
    && w.missing <= s.symbols && w.stale !! s.symbols
    && (s.live ==> s.server == Params(Served(s, w), types))
  }

  lemma {:induction false} UpdateTracked(s: Shard, w: Wire, add0: set<string>, remove0: set<string>, types: seq<string>)
    requires Coherent(s) && Tracked(s, w, types) && NamesDistinct(s.symbols + w.stale + add0, types)
    ensures Tracked(Step(s, Update(add0, remove0), types), Track(w, s, Update(add0, remove0)), types)
  {
    var op := Update(add0, remove0);
    var add, remove := add0 - s.symbols, remove0 * s.symbols;
    var s', w', served := Step(s, op, types), Track(w, s, op), Served(s, w);
    assert s'.symbols == s.symbols + add - remove;
    if s.state == Healthy {
      ParamsUnion(served, add, types);
      NamesWithin(served + add + remove, s.symbols + w.stale + add0, types);
      ParamsMinus(served + add, remove, types);
      assert Served(s', w') == served + add - remove;
    } else {
      assert Served(s', w') == served;
    }
    hide Params, NamesDistinct;
  }

  lemma NamesWithin(a: set<string>, b: set<string>, types: seq<string>)
    requires a <= b && NamesDistinct(b, types)
    ensures NamesDistinct(a, types)
  {
  }

  lemma {:induction false} TrackedStep(s: Shard, w: Wire, op: Op, types: seq<string>)
    requires Coherent(s) && Enabled(s, op) && Tracked(s, w, types)
    requires op.Update? ==> NamesDistinct(s.symbols + w.stale + op.add, types)
    ensures Tracked(Step(s, op, types), Track(w, s, op), types)
  {
    hide Params, NamesDistinct;
    if op.Update? {
      UpdateTracked(s, w, op.add, op.remove, types);
    } else if op.Open? {
      var s' := Step(s, op, types);
      assert Served(s', Wire({}, {})) == s'.symbols;
    }
  }

  lemma {:induction false} SymbolsMentioned(symbols: set<string>, ops: seq<Op>, types: seq<string>)
    ensures var s, w := Run(symbols, ops, types), WireOf(symbols, ops, types);
            s.symbols + s.pendingAdd + w.stale <= Mentioned(symbols, ops)
  {
    hide Params;
    if ops != [] {
      SymbolsMentioned(symbols, ops[..|ops| - 1], types);
    }
  }

  lemma {:induction false} RunTracked(symbols: set<string>, ops: seq<Op>, types: seq<string>)
    requires Possible(symbols, ops, types) && NamesDistinct(Mentioned(symbols, ops), types)
    ensures Tracked(Run(symbols, ops, types), WireOf(symbols, ops, types), types)
  {
    if ops != [] {
      var front, op := ops[..|ops| - 1], ops[|ops| - 1];
      NamesWithin(Mentioned(symbols, front), Mentioned(symbols, ops), types);
      RunTracked(symbols, front, types);
      RunCoherent(symbols, front, types);
      SymbolsMentioned(symbols, front, types);
      var s, w := Run(symbols, front, types), WireOf(symbols, front, types);
      if op.Update? {
        NamesWithin(s.symbols + w.stale + op.add, Mentioned(symbols, ops), types);
      }
      hide NamesDistinct, Tracked;
      TrackedStep(s, w, op, types);
    }
  }

  /** Distinct names tell sets of symbols apart. */
  lemma {:induction false} ParamsInjective(a: set<string>, b: set<string>, types: seq<string>)
    requires types != [] && NamesDistinct(a + b, types)
    ensures Params(a, types) == Params(b, types) <==> a == b
  {
    if x :| x in a && x !in b {
      assert Name(x, types[0]) in Params(a, types);
      assert x in a + b && forall y | y in b :: y in a + b;
      assert Name(x, types[0]) !in Params(b, types);
    }
    if x :| x in b && x !in a {
      assert Name(x, types[0]) in Params(b, types);
      assert x in a + b && forall y | y in a :: y in a + b;
      assert Name(x, types[0]) !in Params(a, types);
    }
  }

  /**
    Over every run, whenever updates land: while the connection is up the server sends the streams of the local symbols
    without the missing and with the stale ones; hence it is in step iff there are none of either.
   */
  lemma {:induction false} ServerAccounted(symbols: set<string>, ops: seq<Op>, types: seq<string>)
    requires Possible(symbols, ops, types) && types != [] && NamesDistinct(Mentioned(symbols, ops), types)
    ensures var s, w := Run(symbols, ops, types), WireOf(symbols, ops, types);
            && w.missing <= s.symbols && w.stale !! s.symbols
            && (s.state == Healthy ==> s.live)
            && (s.live ==>
                  && s.server == Params(s.symbols - w.missing + w.stale, types)
                  && (s.server == Params(s.symbols, types) <==> w.missing == {} && w.stale == {}))
  {
    RunTracked(symbols, ops, types);
    RunCoherent(symbols, ops, types);
    SymbolsMentioned(symbols, ops, types);
    var s, w := Run(symbols, ops, types), WireOf(symbols, ops, types);
    NamesWithin(Served(s, w) + s.symbols, Mentioned(symbols, ops), types);
    ParamsInjective(Served(s, w), s.symbols, types);
    hide Run, WireOf, Params, NamesDistinct;
  }

  lemma {:induction false} AtomicWire(symbols: set<string>, ops: seq<Op>, types: seq<string>)
    requires Possible(symbols, ops, types) && AtomicConnect(symbols, ops, types)
    ensures Run(symbols, ops, types).live ==> WireOf(symbols, ops, types) == Wire({}, {})
  {
    if ops != [] {
      var front := ops[..|ops| - 1];
      assert forall i | 0 <= i < |front| :: front[..i] == ops[..i];
      AtomicWire(symbols, front, types);
      RunCoherent(symbols, front, types);
      hide Params;
    }
  }

  /** With atomic connects the server sends exactly the streams of the local symbols whenever the connection is up. */
  lemma {:induction false} HealthyMeansSynced(symbols: set<string>, ops: seq<Op>, types: seq<string>)
    requires Possible(symbols, ops, types) && AtomicConnect(symbols, ops, types)
    requires NamesDistinct(Mentioned(symbols, ops), types)
    ensures var s := Run(symbols, ops, types);
            && (s.live ==> s.server == Params(s.symbols, types))
            && (s.live && s.phase == Listening ==> s.state == Healthy)
            && (s.state == Healthy ==> s.server == Params(s.symbols, types))
  {
    RunTracked(symbols, ops, types);
    RunCoherent(symbols, ops, types);
    AtomicWire(symbols, ops, types);
    var s := Run(symbols, ops, types);
    assert Served(s, Wire({}, {})) == s.symbols;
    hide Run, WireOf, Params, NamesDistinct;
  }

  // ----- the limits of the code ---------------------------------------------------------------

  /** A symbol removed and re-added during one outage is wanted but no longer subscribed. */
  lemma {:induction false} ReaddedSymbolIsLost(types: seq<string>)
    ensures var ops := [Update({}, {"A"}), Update({"A"}, {}), Dial, Open, Ready];
            && Possible({"A"}, ops, types) && AtomicConnect({"A"}, ops, types)
            && DemandOf({"A"}, ops).wanted == {"A"}
            && Run({"A"}, ops, types).state == Healthy
            && Run({"A"}, ops, types).symbols == {}
  {
    var out, back := Update({}, {"A"}), Update({"A"}, {});
    hide Run, DemandOf, AccountOf, Params, Possible;
    Snoc({"A"}, [], out, [out], types);
    assert Run({"A"}, [out], types) == Started({"A"}).(symbols := {}, pendingRemove := {"A"});
    Snoc({"A"}, [out], back, [out, back], types);
    assert Run({"A"}, [out, back], types) == Started({"A"}).(pendingAdd := {"A"}, pendingRemove := {"A"});
    assert DemandOf({"A"}, [out, back]) == Demand({"A"}, {"A"}, {}, false);
    Snoc({"A"}, [out, back], Dial, [out, back, Dial], types);
    Snoc({"A"}, [out, back, Dial], Open, [out, back, Dial, Open], types);
    assert Run({"A"}, [out, back, Dial, Open], types).symbols == {};
    Snoc({"A"}, [out, back, Dial, Open], Ready, [out, back, Dial, Open, Ready], types);
    assert [out, back, Dial, Open, Ready][..0] == [] && [out, back, Dial, Open, Ready][..1] == [out];
  }

  lemma {:induction false} Snoc(symbols: set<string>, front: seq<Op>, op: Op, ops: seq<Op>, types: seq<string>)
    requires ops == front + [op]
    ensures Run(symbols, ops, types) == Step(Run(symbols, front, types), op, types)
    ensures DemandOf(symbols, ops) == Note(DemandOf(symbols, front), op)
    ensures AccountOf(symbols, ops) == Post(AccountOf(symbols, front), op)
    ensures Possible(symbols, ops, types)
            <==> Possible(symbols, front, types) && Enabled(Run(symbols, front, types), op)
    ensures front == [] ==>
              && Run(symbols, front, types) == Started(symbols)
              && DemandOf(symbols, front) == Demand(symbols, {}, {}, false)
              && AccountOf(symbols, front) == Account(symbols, {}, {}, {}, {}, false)
              && Possible(symbols, front, types)
  {
    assert ops[..|ops| - 1] == front;
  }

  /** A symbol added while the subscribe messages are on their way is local and healthy, but its streams never come. */
  lemma {:induction false} ParkedUpdateStaysMissing(types: seq<string>)
    requires types != []
    ensures var ops := [Dial, Open, Update({"B"}, {}), Ready];
            var s := Run({"A"}, ops, types);
            && Possible({"A"}, ops, types)
            && s.state == Healthy && s.symbols == {"A", "B"}
            && s.server == Params({"A"}, types) != Params(s.symbols, types)
  {
    var add := Update({"B"}, {});
    var (r1, r2, r3, r4) := ([Dial], [Dial, Open], [Dial, Open, add], [Dial, Open, add, Ready]);
    hide Run, DemandOf, AccountOf, Params, Possible;
    Snoc({"A"}, [], Dial, r1, types);
    Snoc({"A"}, r1, Open, r2, types);
    Snoc({"A"}, r2, add, r3, types);
    Snoc({"A"}, r3, Ready, r4, types);
    assert {"A"} + {} - {} == {"A"} && {"A"} + ({"B"} - {"A"}) - ({} * {"A"}) == {"A", "B"};
    TwoNames(types);
    ParamsInjective({"A"}, {"A", "B"}, types);
  }

  lemma TwoNames(types: seq<string>)
    ensures NamesDistinct({"A"} + {"A", "B"}, types)
  {
    assert Lower("A")[0] == 'a' && Lower("B")[0] == 'b';
    PlainSymbolsAreDistinct({"A", "B"}, types);
    assert {"A"} + {"A", "B"} == {"A", "B"};
  }

  /**
    And its parked add outlives a removal made while healthy: the next reconnect replays it, and a symbol nobody wants
    is local and subscribed again.
   */
  lemma {:induction false} RemovedSymbolComesBack(types: seq<string>)
    ensures var ops := [Dial, Open, Update({"B"}, {}), Ready, Update({}, {"B"}), Lost(true), Dial, Open, Ready];
            var s := Run({"A"}, ops, types);
            && Possible({"A"}, ops, types)
            && AccountOf({"A"}, ops).wanted == {"A"}
            && s.state == Healthy && s.symbols == {"A", "B"} && s.server == Params({"A", "B"}, types)
  {
    var add, remove := Update({"B"}, {}), Update({}, {"B"});
    var r4, r6 := [Dial, Open, add, Ready], [Dial, Open, add, Ready, remove, Lost(true)];
    hide Run, DemandOf, AccountOf, Params, Possible;
    UpToReady(types);
    Snoc({"A"}, r4, remove, r4 + [remove], types);
    Snoc({"A"}, r4 + [remove], Lost(true), r6, types);
    assert {"A", "B"} + ({} - {"A", "B"}) - ({"B"} * {"A", "B"}) == {"A"};
    var s := Run({"A"}, r6, types);
    assert s.symbols == {"A"} && s.pendingAdd == {"B"} && s.pendingRemove == {};
    assert {"A"} + {"B"} - {} == {"A", "B"};
    Snoc({"A"}, r6, Dial, r6 + [Dial], types);
    Snoc({"A"}, r6 + [Dial], Open, r6 + [Dial, Open], types);
    Snoc({"A"}, r6 + [Dial, Open], Ready, r6 + [Dial, Open, Ready], types);
    assert r6 + [Dial, Open, Ready] == [Dial, Open, add, Ready, remove, Lost(true), Dial, Open, Ready];
    assert {"A"} - {"B"} == {"A"};
  }

  lemma UpToReady(types: seq<string>)
    ensures var ops := [Dial, Open, Update({"B"}, {}), Ready];
            var s := Run({"A"}, ops, types);
            && Possible({"A"}, ops, types) && AccountOf({"A"}, ops).wanted == {"A", "B"}
            && s.symbols == {"A", "B"} && s.pendingAdd == {"B"} && s.pendingRemove == {}
            && s.state == Healthy && s.phase == Listening && s.live && s.hasSocket
  {
    var add := Update({"B"}, {});
    var (r1, r2, r3, r4) := ([Dial], [Dial, Open], [Dial, Open, add], [Dial, Open, add, Ready]);
    hide Run, DemandOf, AccountOf, Params, Possible;
    Snoc({"A"}, [], Dial, r1, types);
    Snoc({"A"}, r1, Open, r2, types);
    Snoc({"A"}, r2, add, r3, types);
    Snoc({"A"}, r3, Ready, r4, types);
    assert {"A"} + {} - {} == {"A"} && {"A"} + ({"B"} - {"A"}) - ({} * {"A"}) == {"A", "B"};
    assert {} + ({"B"} - {"A"}) == {"B"} && {} + {} * {"A"} == {};
    assert {"A"} - {} + {"B"} == {"A", "B"};
  }
}
