/** CallState as the object it is: each method is one critical section under its
    mutex, proved to do what AsyncCalls' step does to the same state. */
module CallState {
  import opened AsyncCalls
  import opened Wrappers

  // What the reply handler learns from the critical section that looks up its sentinel.
  datatype Filing = Buffered(v: Value) | Stopping | Waiting

  class CallState {
    var inflight: set<CallNo>
    var deferred: map<DeferId, CallNo>
    var completions: map<DeferId, Value>
    var completionOrder: seq<DeferId>
    var syncOutstanding: nat
    var stopping: bool

    function View(): State
      reads this
    {
      State(inflight, deferred, completions, completionOrder, syncOutstanding, stopping)
    }

    constructor ()
      ensures View() == FRESH && StateInv(View())
    {
      inflight, deferred, completions := {}, map[], map[];
      completionOrder, syncOutstanding, stopping := [], 0, false;
    }

    predicate Busy()
      reads this
    {
      syncOutstanding > 0 || inflight != {} || deferred != map[]
    }

    /** Parks a completion nobody is waiting on yet, evicting the oldest past the cap;
        drops it when this handle has nothing outstanding. */
    method ParkCompletion(id: DeferId, v: Value)
      requires StateInv(View())
      modifies this
      ensures View() == old(View()).Park(id, v) && StateInv(View())
      ensures !old(Busy()) ==> View() == old(View())
      ensures old(Busy()) && id in old(completions) ==>
                completions == old(completions)[id := v] && completionOrder == old(completionOrder)
      ensures old(Busy()) && id !in old(completions) && |old(completionOrder)| < 512 ==>
                completions == old(completions)[id := v] && completionOrder == old(completionOrder) + [id]
      ensures old(Busy()) && id !in old(completions) && |old(completionOrder)| >= 512 ==>
                && completions == old(completions)[id := v] - {old(completionOrder)[0]}
                && completionOrder == (old(completionOrder) + [id])[1..]
    {
      ParkKeeps(View(), id, v);
      ParksAtTheEnd(View(), id, v);
      if !Busy() { return; }
      if id in completions {
        completions := completions[id := v];
        return;
      }
      completions := completions[id := v];
      completionOrder := completionOrder + [id];
      while |completionOrder| > PARKED_CAP
        invariant Evict(View()) == old(View()).Park(id, v)
      {
        completions := completions - {completionOrder[0]};
        completionOrder := completionOrder[1..];
      }
    }

    /** Claims a parked completion, keeping the map and its order in step. */
    method TakeCompletion(id: DeferId) returns (out: Option<Value>)
      requires StateInv(View())
      modifies this
      ensures View() == old(View()).Take(id) && StateInv(View())
      ensures out == if id in old(completions) then Some(old(completions)[id]) else None
      ensures completions == old(completions) - {id}
      ensures forall x :: x in completionOrder <==> x in old(completionOrder) && x != id
    {
      TakeKeeps(View(), id);
      ErasedOrder(completionOrder, id);
      if id !in completions { return None; }
      out := Some(completions[id]);
      completions := completions - {id};
      completionOrder := FindErase(completionOrder, id);
    }

    method DropUnclaimedIfIdle()
      modifies this
      ensures View() == if syncOutstanding > 0 || inflight != {} || deferred != map[] then old(View())
                        else old(View()).(completions := map[], order := [])
      ensures View() == old(View()).DropIfIdle()
    {
      if Busy() { return; }
      completions := map[];
      completionOrder := [];
    }

    method BeginSync()
      requires StateInv(View())
      modifies this
      ensures View() == old(View()).(syncOutstanding := old(syncOutstanding) + 1) && StateInv(View())
    {
      syncOutstanding := syncOutstanding + 1;
    }

    method EndSync()
      requires StateInv(View()) && syncOutstanding > 0
      modifies this
      ensures View() == old(View()).(syncOutstanding := old(syncOutstanding) - 1).DropIfIdle() && StateInv(View())
    {
      syncOutstanding := syncOutstanding - 1;
      DropUnclaimedIfIdle();
    }

    /** callAsync: files the call, or refuses it once teardown has begun. */
    method FileInflight(no: CallNo) returns (refused: bool)
      requires StateInv(View())
      modifies this
      ensures StateInv(View()) && refused == old(stopping)
      ensures inflight == if refused then old(inflight) else old(inflight) + {no}
      ensures forall calls: map<CallNo, Call> :: no in calls ==>
                FiledCall(World(old(View()), calls, true), no).st == View()
    {
      refused := stopping;
      if !refused { inflight := inflight + {no}; }
    }

    /** The reply handler holding a sentinel: take the completion if it is here already,
        else wait for it under the provider's id. */
    method FileDeferred(no: CallNo, id: DeferId) returns (r: Filing)
      requires StateInv(View())
      modifies this
      ensures StateInv(View())
      ensures r == if id in old(completions) then Buffered(old(completions)[id])
                   else if old(stopping) then Stopping else Waiting
      ensures View() == match r
                        case Buffered(_) => old(View()).Take(id)
                        case Stopping => old(View())
                        case Waiting => old(View()).(deferred := old(deferred)[id := no])
    {
      var stop := stopping;
      var buffered := TakeCompletion(id);
      if buffered.Some? { return Buffered(buffered.value); }
      if stop { return Stopping; }
      deferred := deferred[id := no];
      return Waiting;
    }

    /** The completion subscriber: hands the value to the call filed under `id`, or parks it. */
    method OnCompletion(id: DeferId, v: Value) returns (call: Option<CallNo>)
      requires StateInv(View())
      modifies this
      ensures StateInv(View())
      ensures id in old(deferred) ==>
                call == Some(old(deferred)[id]) && View() == old(View()).(deferred := old(deferred) - {id})
      ensures id !in old(deferred) ==> call == None && View() == old(View()).Park(id, v)
    {
      if id in deferred {
        call := Some(deferred[id]);
        deferred := deferred - {id};
      } else {
        call := None;
        ParkCompletion(id, v);
      }
    }

    /** deliver(): leaves both registries before the exactly-once gate. */
    method LeaveRegistries(no: CallNo, deferId: Option<DeferId>)
      requires StateInv(View())
      modifies this
      ensures View() == old(View()).Leave(no, deferId) && StateInv(View())
      ensures inflight == old(inflight) - {no} && stopping == old(stopping) && syncOutstanding == old(syncOutstanding)
      ensures deferred == if deferId.Some? then old(deferred) - {deferId.value} else old(deferred)
    {
      inflight := inflight - {no};
      if deferId.Some? { deferred := deferred - {deferId.value}; }
      DropUnclaimedIfIdle();
    }

    /** Teardown: raises the flag, empties everything and names the calls to cancel. */
    method StopAndCancel() returns (outstanding: set<CallNo>)
      modifies this
      ensures View() == old(View()).Stop() && StateInv(View())
      ensures stopping && inflight == {} && deferred == map[] && completions == map[] && completionOrder == []
      ensures syncOutstanding == old(syncOutstanding)
      ensures outstanding == old(inflight)
    {
      stopping := true;
      outstanding := inflight;
      inflight, deferred, completions, completionOrder := {}, map[], map[], [];
    }
  }

  // What parking comes to, with room left or without.
  lemma ParksAtTheEnd(st: State, id: DeferId, v: Value)
    requires StateInv(st)
    ensures var p := st.Park(id, v);
            st.Busy() && id !in st.completions ==>
              if |st.order| < PARKED_CAP then p.completions == st.completions[id := v] && p.order == st.order + [id]
              else p.completions == st.completions[id := v] - {st.order[0]} && p.order == (st.order + [id])[1..]
  {
    if st.Busy() && id !in st.completions && |st.order| == PARKED_CAP {
      EvictDropsOldest(st.(completions := st.completions[id := v], order := st.order + [id]));
    }
  }

  /** Finds the first occurrence and erases it, as the deque is searched. */
  method FindErase(s: seq<DeferId>, id: DeferId) returns (out: seq<DeferId>)
    ensures out == Erase(s, id)
  {
    var i := 0;
    while i < |s| && s[i] != id
      invariant 0 <= i <= |s|
      invariant Erase(s, id) == s[..i] + Erase(s[i..], id)
    {
      assert s[i..][1..] == s[i + 1..];
      i := i + 1;
    }
    if i < |s| {
      assert s[i..][1..] == s[i + 1..];
      out := s[..i] + s[i + 1..];
    } else {
      assert s[i..] == [];
      out := s;
    }
  }
}
