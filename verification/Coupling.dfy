/**
 The retention policy of the certificate controller relies on what Binding rounds may do meanwhile.
 This is where the two models meet: what a round does to its status is a move of the surroundings.
 */
module Coupling {
  import opened Pki
  import opened Providers
  import opened BindingRound
  import opened Retention
  import opened Surroundings

  /** What the policy reads of a Binding with this status. */
  function ViewOf(b: BindingView, s: BindingRound.Status): BindingView {
    b.(observedGeneration := s.observedGeneration, appliedFingerprint := s.appliedFingerprint)
  }

  /** Runs one round and names the move it amounts to. */
  method RoundIsAMove(binding: Binding, input: Input, c: Cluster, i: nat, elsewhere: string)
    returns (ghost moves: seq<Move>)
    requires binding.Valid() && !binding.deleting && Plausible(input)
    requires i < |c.bindings| && c.bindings[i] == ViewOf(c.bindings[i], binding.status)
    requires c.bindings[i].generation == input.generation
    requires input.secret.Some? ==>
               input.secret.value.fingerprint == if c.bindings[i].certificateRef == c.crName then c.served else elsewhere
    modifies binding, binding.cloud
    ensures binding.Valid() && !binding.deleting
    ensures Surroundings.AllMoved(c, moves) == c.(bindings := c.bindings[i := ViewOf(c.bindings[i], binding.status)])
  {
    hide Rightful, Owes, StatusOk;
    var before := binding.status;
    var _ := binding.Reconcile(input);
    var b := ViewOf(c.bindings[i], binding.status);
    if binding.status == before {
      moves := [];
      assert c.bindings[i := b] == c.bindings;
    } else {
      var adopts := binding.status.appliedFingerprint != before.appliedFingerprint;
      moves := [BindingRound(i, adopts, elsewhere)];
      assert Surroundings.AllMoved(c, moves) == Surroundings.AllMoved(Surroundings.Moved(c, moves[0]), []);
    }
  }
}
