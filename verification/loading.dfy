/** The Cancel button (operators/loading.py): switch the loading flag off
    and call `cancel` on every registered asynchronous operator, going
    through a snapshot of the registry and swallowing any exception. */
module Loading {
  import opened Panel
  import opened Scene
  import opened AsyncOperation

  /** Whether some entry among the first `n` of the snapshot was cancelled
      without raising. */
  predicate SomeCancelled(raises: nat -> bool, n: nat) {
    exists i | 0 <= i < n :: !raises(i)
  }

  /** `MIXAR_OT_cancel_operation.execute`, not wrapped by the error handler.
      `raises(i)` says whether handling the snapshot's entry `i` raises
      before its `cancel` has any effect (an instance the host has already
      freed, say); the loop goes on with the next entry either way. */
  method CancelAll(w: World, raises: nat -> bool) returns (r: Step)
    ensures r.status == Finished
    ensures !r.world.props.isLoading
    ensures |r.world.operators| == |w.operators|
    ensures forall i :: 0 <= i < |w.operators| ==>
      r.world.operators[i] == (if raises(i) then w.operators[i] else CancelledOp(w.operators[i]))
    ensures r.world.props.loadingMessage == (if SomeCancelled(raises, |w.operators|) then IdleMessage else w.props.loadingMessage)
    ensures r.world == w.(props := w.props.(isLoading := false, loadingMessage := r.world.props.loadingMessage),
                          operators := r.world.operators)
  {
    var world := w.(props := w.props.(isLoading := false));
    var snapshot := w.operators;
    var k := 0;
    while k < |snapshot|
      invariant 0 <= k <= |snapshot|
      invariant |world.operators| == |snapshot|
      invariant forall i :: 0 <= i < k ==>
        world.operators[i] == (if raises(i) then snapshot[i] else CancelledOp(snapshot[i]))
      invariant forall i :: k <= i < |snapshot| ==> world.operators[i] == snapshot[i]
      invariant world.props.loadingMessage == (if SomeCancelled(raises, k) then IdleMessage else w.props.loadingMessage)
      invariant world == w.(props := w.props.(isLoading := false, loadingMessage := world.props.loadingMessage),
                            operators := world.operators)
    {
      if !raises(k) {
        world := Cancel(world, k).world;
      }
      assert SomeCancelled(raises, k + 1) <==> SomeCancelled(raises, k) || !raises(k);
      k := k + 1;
    }
    r := Step(Finished, world);
  }
}
