/** The shard object: its fields, the messages it puts on the wire, and the server that replays them. */
module Shard {
  import opened Prelude
  import opened ShardModel

  const MAX_PARAMS_PER_SUBSCRIBE_MSG: nat := 200

  datatype Message = Message(subscribe: bool, params: seq<string>, id: nat)

  function AsSet(params: seq<string>): set<string> {
    set p | p in params
  }

  /** The streams a server sends after reading these messages on a fresh connection. */
  function Replay(sent: seq<Message>): set<string> {
    if sent == [] then {}
    else
      var before, m := Replay(sent[..|sent| - 1]), sent[|sent| - 1];
      if m.subscribe then before + AsSet(m.params) else before - AsSet(m.params)
  }

  function Concat(msgs: seq<Message>): seq<string> {
    if msgs == [] then [] else Concat(msgs[..|msgs| - 1]) + msgs[|msgs| - 1].params
  }

  /** Numbered messages of one kind that spell out `params`, none empty or over the limit, all but the last full. */
  ghost predicate Chunked(msgs: seq<Message>, params: seq<string>, subscribe: bool, firstId: nat) {
    && Concat(msgs) == params
    && (forall k | 0 <= k < |msgs| ::
          && msgs[k].subscribe == subscribe
          && msgs[k].id == firstId + k
          && 0 < |msgs[k].params| <= 200)
    && (forall k | 0 <= k < |msgs| - 1 :: |msgs[k].params| == 200)
  }

  /** Every parameter spells one of the symbols with one of the types, and every such pair is spelled. */
  ghost predicate SpellsOut(params: seq<string>, wanted: set<string>, types: seq<string>) {
    && (forall n | n in params :: exists x, t | x in wanted && t in types :: Spells(n, x, t))
    && (forall x, t | x in wanted && t in types :: exists n | n in params :: Spells(n, x, t))
  }

  lemma {:induction false} ParamsAreSpelled(params: seq<string>, wanted: set<string>, types: seq<string>)
    requires AsSet(params) == Params(wanted, types)
    ensures SpellsOut(params, wanted, types)
  {
    hide Name, Spells;
    forall n | n in params
      ensures exists x, t | x in wanted && t in types :: Spells(n, x, t)
    {
      assert n in AsSet(params);
      var x, t :| x in wanted && t in types && n == Name(x, t);
      NameIsSpelled(n, x, t);
    }
    forall x, t | x in wanted && t in types
      ensures exists n | n in params :: Spells(n, x, t)
    {
      assert Name(x, t) in Params(wanted, types);
      assert Name(x, t) in AsSet(params);
      NameIsSpelled(Name(x, t), x, t);
    }
  }

  lemma {:induction false} ReplayChunks(sent: seq<Message>, msgs: seq<Message>, subscribe: bool)
    requires forall k | 0 <= k < |msgs| :: msgs[k].subscribe == subscribe
    ensures Replay(sent + msgs) ==
            if subscribe then Replay(sent) + AsSet(Concat(msgs)) else Replay(sent) - AsSet(Concat(msgs))
  {
    if msgs == [] {
      assert sent + msgs == sent;
    } else {
      var front := msgs[..|msgs| - 1];
      ReplayChunks(sent, front, subscribe);
      assert (sent + msgs)[..|sent + msgs| - 1] == sent + front;
      assert AsSet(Concat(msgs)) == AsSet(Concat(front)) + AsSet(msgs[|msgs| - 1].params);
    }
  }

  class BinanceShard {
    const streamTypes: seq<string>
    var symbols: set<string>
    var pendingAdd: set<string>
    var pendingRemove: set<string>
    var state: ConnectionState
    var phase: Phase
    var hasSocket: bool
    var live: bool
    var sent: seq<Message>
    var nextId: nat
    var reconnectAttempt: nat
    var reconnectCount: nat

    ghost predicate Valid()
      reads this
    {
      && (!live ==> sent == [])
      && (live ==> hasSocket)
      && (state == Healthy ==> live)
      && state != Connected
    }

    ghost function View(): ShardModel.Shard
      reads this
    {
      ShardModel.Shard(symbols, pendingAdd, pendingRemove, state, phase, hasSocket, live, Replay(sent))
    }

    constructor (streamTypes: seq<string>)
      ensures Valid() && View() == Started({}) && this.streamTypes == streamTypes
      ensures sent == [] && nextId == 1 && reconnectAttempt == 0 && reconnectCount == 0
    {
      this.streamTypes := streamTypes;
      symbols, pendingAdd, pendingRemove := {}, {}, {};
      state, phase, hasSocket, live := Disconnected, Idle, false, false;
      sent, nextId, reconnectAttempt, reconnectCount := [], 1, 0, 0;
    }

    method Start(initial: set<string>)
      requires Valid() && View() == Started({})
      modifies this`symbols
      ensures Valid() && View() == Started(initial)
    {
      symbols := initial;
    }

    /** The stream names of a set of symbols, in whatever order the set is traversed. */
    method StreamNames(wanted: set<string>) returns (params: seq<string>)
      ensures AsSet(params) == Params(wanted, streamTypes)
      ensures |params| == |wanted| * |streamTypes|
    {
      params := [];
      var rest := wanted;
      while rest != {}
        invariant rest <= wanted
        invariant AsSet(params) == Params(wanted - rest, streamTypes)
        invariant |params| == (|wanted| - |rest|) * |streamTypes|
        decreases rest
      {
        var symbol :| symbol in rest;
        ghost var before := params;
        for i := 0 to |streamTypes|
          invariant params == before + seq(i, k requires 0 <= k < i => Name(symbol, streamTypes[k]))
        {
          params := params + [Name(symbol, streamTypes[i])];
        }
        OneSymbol(symbol, before, params);
        ParamsUnion(wanted - rest, {symbol}, streamTypes);
        assert wanted - rest + {symbol} == wanted - (rest - {symbol});
        rest := rest - {symbol};
      }
      assert wanted - rest == wanted;
    }

    lemma {:induction false} OneSymbol(symbol: string, before: seq<string>, after: seq<string>)
      requires after == before + seq(|streamTypes|, k requires 0 <= k < |streamTypes| => Name(symbol, streamTypes[k]))
      ensures AsSet(after) == AsSet(before) + Params({symbol}, streamTypes)
    {
      var names := seq(|streamTypes|, k requires 0 <= k < |streamTypes| => Name(symbol, streamTypes[k]));
      forall t | t in streamTypes
        ensures Name(symbol, t) in after
      {
        var k :| 0 <= k < |streamTypes| && streamTypes[k] == t;
        assert after[|before| + k] == Name(symbol, t);
      }
      assert forall n | n in names :: n in Params({symbol}, streamTypes);
      assert forall n | n in after :: n in before || n in names;
    }

    /** Sends nothing without a socket; otherwise the stream names in chunks, numbered on from the last message. */
    method SendSubMessage(subscribe: bool, wanted: set<string>)
      returns (ghost msgs: seq<Message>, ghost params: seq<string>)
      requires Valid() && (hasSocket ==> live)
      modifies this`sent, this`nextId
      ensures Valid()
      ensures !hasSocket ==> msgs == [] && sent == old(sent) && nextId == old(nextId)
      ensures hasSocket ==>
                && AsSet(params) == Params(wanted, streamTypes)
                && |params| == |wanted| * |streamTypes|
                && SpellsOut(params, wanted, streamTypes)
                && Chunked(msgs, params, subscribe, old(nextId))
                && sent == old(sent) + msgs
                && nextId == old(nextId) + |msgs|
                && Replay(sent) == if subscribe then Replay(old(sent)) + Params(wanted, streamTypes)
                                   else Replay(old(sent)) - Params(wanted, streamTypes)
    {
      msgs, params := [], [];
      if !hasSocket {
        return;
      }
      var names := StreamNames(wanted);
      params := names;
      ParamsAreSpelled(names, wanted, streamTypes);
      hide SpellsOut, Params;
      var i := 0;
      while i < |names|
        invariant Valid() && 0 <= i
        invariant i == |msgs| * MAX_PARAMS_PER_SUBSCRIBE_MSG || i >= |names|
        invariant Chunked(msgs, names[..Min(i, |names|)], subscribe, old(nextId))
        invariant i < |names| ==> forall k | 0 <= k < |msgs| :: |msgs[k].params| == MAX_PARAMS_PER_SUBSCRIBE_MSG
        invariant sent == old(sent) + msgs && nextId == old(nextId) + |msgs|
      {
        var end := Min(i + MAX_PARAMS_PER_SUBSCRIBE_MSG, |names|);
        var m := Message(subscribe, names[i..end], nextId);
        assert names[..end] == names[..i] + names[i..end];
        assert (msgs + [m])[..|msgs|] == msgs;
        nextId := nextId + 1;
        sent := sent + [m];
        msgs := msgs + [m];
        i := i + MAX_PARAMS_PER_SUBSCRIBE_MSG;
      }
      assert names[..Min(i, |names|)] == names;
      ReplayChunks(old(sent), msgs, subscribe);
    }

    method SendChanges(add: set<string>, remove: set<string>)
      requires Valid() && hasSocket && live
      modifies this`sent, this`nextId
      ensures Valid() && Replay(sent) == Replay(old(sent)) + Params(add, streamTypes) - Params(remove, streamTypes)
    {
      NoParams();
      hide Params, Replay, SpellsOut, Chunked;
      if add != {} {
        var _, _ := SendSubMessage(true, add);
      }
      if remove != {} {
        var _, _ := SendSubMessage(false, remove);
      }
    }

    method UpdateSubscriptions(add0: set<string>, remove0: set<string>)
      requires Valid()
      modifies this
      ensures Valid() && View() == Step(old(View()), Update(add0, remove0), streamTypes)
    {
      hide Params, Replay;
      var add := add0 - symbols;
      var remove := remove0 * symbols;
      symbols := symbols + add;
      symbols := symbols - remove;
      assert symbols == old(symbols) + add - remove;
      if !hasSocket || (state != Healthy && state != Connected) {
        pendingAdd := pendingAdd + add;
        pendingRemove := pendingRemove + remove;
        return;
      }
      SendChanges(add, remove);
    }

    lemma NoParams()
      ensures Params({}, streamTypes) == {}
    {
    }

    method BeginConnect()
      requires Valid() && Enabled(View(), Dial)
      modifies this
      ensures Valid() && View() == Step(old(View()), Dial, streamTypes)
    {
      state, phase := Connecting, Dialing;
    }

    method SubscribeOwned()
      requires Valid() && hasSocket && live && sent == []
      modifies this`sent, this`nextId
      ensures Valid() && Replay(sent) == Params(symbols, streamTypes)
    {
      NoParams();
      hide SpellsOut, Chunked;
      if symbols != {} {
        var _, _ := SendSubMessage(true, symbols);
      }
    }

    /** The connection is up: apply what was parked and subscribe to everything this shard owns. */
    method OnOpen()
      requires Valid() && Enabled(View(), Open)
      modifies this
      ensures Valid() && View() == Step(old(View()), Open, streamTypes)
    {
      hide Params, Replay, Coherent;
      state, phase := Subscribing, Opening;
      hasSocket, live, sent := true, true, [];
      symbols := symbols + pendingAdd;
      symbols := symbols - pendingRemove;
      pendingAdd, pendingRemove := {}, {};
      SubscribeOwned();
    }

    method OnSubscribed()
      requires Valid() && Enabled(View(), Ready)
      modifies this
      ensures Valid() && View() == Step(old(View()), Ready, streamTypes) && reconnectAttempt == 0
    {
      state, phase := Healthy, Listening;
      reconnectAttempt := 0;
    }

    /** The attempt or the connection ended; a listening connection that ended without an error clears the socket. */
    method OnLost(clean: bool)
      requires Valid() && Enabled(View(), Lost(clean))
      modifies this
      ensures Valid() && View() == Step(old(View()), Lost(clean), streamTypes)
      ensures reconnectAttempt == old(reconnectAttempt) + 1 && reconnectCount == old(reconnectCount) + 1
    {
      live, sent := false, [];
      if clean && phase == Listening {
        hasSocket := false;
      }
      state, phase := Reconnecting, Idle;
      reconnectAttempt := reconnectAttempt + 1;
      reconnectCount := reconnectCount + 1;
    }

    method OnSoftReconnect()
      requires Valid()
      modifies this
      ensures Valid() && View() == Step(old(View()), ShardModel.SoftReconnect, streamTypes)
    {
      state := SoftReconnecting;
      if hasSocket {
        live, sent := false, [];
      }
    }
  }
}
