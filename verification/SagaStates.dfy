/** The saga state machine. */
module SagaStates {

  datatype SagaState = Pending | InProgress | Compensating | Completed | Failed | Cancelled

  /** The guard of `SagaState`. */
  predicate CanTransitionTo(s: SagaState, t: SagaState) {
    match s
    case Pending => t.InProgress?
    case InProgress => t.Completed? || t.Compensating? || t.Cancelled?
    case Compensating => t.Completed? || t.Failed?
    case _ => false
  }

  /** Every two states stored one after the other are a move of the guard. */
  ghost predicate FollowsGuard(states: seq<SagaState>) {
    forall i | 0 <= i < |states| - 1 :: CanTransitionTo(states[i], states[i + 1])
  }

  /** The longest ways a saga can go. */
  const Succeeding: seq<SagaState> := [Pending, InProgress, Completed]
  const Cancelling: seq<SagaState> := [Pending, InProgress, Cancelled]
  const RollingBack: seq<SagaState> := [Pending, InProgress, Compensating, Completed]
  const GivingUp: seq<SagaState> := [Pending, InProgress, Compensating, Failed]

  predicate IsPrefix(r: seq<SagaState>, whole: seq<SagaState>) { 0 < |r| <= |whole| && r == whole[..|r|] }

  /** The runs of a new saga under the guard are exactly the beginnings of these four. */
  lemma RunsOfNewSaga(r: seq<SagaState>)
    ensures r != [] && r[0] == Pending && FollowsGuard(r)
       <==> IsPrefix(r, Succeeding) || IsPrefix(r, Cancelling) || IsPrefix(r, RollingBack) || IsPrefix(r, GivingUp)
  {
    if r != [] && r[0] == Pending && FollowsGuard(r) {
      NewSagaGoes(r);
    }
    if IsPrefix(r, Succeeding) { PrefixFollows(r, Succeeding); }
    if IsPrefix(r, Cancelling) { PrefixFollows(r, Cancelling); }
    if IsPrefix(r, RollingBack) { PrefixFollows(r, RollingBack); }
    if IsPrefix(r, GivingUp) { PrefixFollows(r, GivingUp); }
  }

  lemma PrefixFollows(r: seq<SagaState>, whole: seq<SagaState>)
    requires IsPrefix(r, whole) && FollowsGuard(whole)
    ensures FollowsGuard(r)
  {
    forall i | 0 <= i < |r| - 1 ensures CanTransitionTo(r[i], r[i + 1]) {
      assert r[i] == whole[i] && r[i + 1] == whole[i + 1];
    }
  }

  lemma NewSagaGoes(r: seq<SagaState>)
    requires r != [] && r[0] == Pending && FollowsGuard(r)
    ensures IsPrefix(r, Succeeding) || IsPrefix(r, Cancelling) || IsPrefix(r, RollingBack) || IsPrefix(r, GivingUp)
  {
    forall i | 0 <= i < |r| - 1 ensures !r[i].Completed? && !r[i].Failed? && !r[i].Cancelled? {
      assert CanTransitionTo(r[i], r[i + 1]);
    }
    if |r| > 1 { assert CanTransitionTo(r[0], r[0 + 1]); }
    if |r| > 2 { assert CanTransitionTo(r[1], r[1 + 1]); }
    if |r| > 3 { assert CanTransitionTo(r[2], r[2 + 1]); }
    if |r| == 1 {
      assert r == Succeeding[..1];
    } else if |r| == 2 {
      assert r == Succeeding[..2];
    } else if |r| == 3 {
      assert r == Succeeding[..3] || r == Cancelling[..3] || r == RollingBack[..3];
    } else {
      assert r == RollingBack[..4] || r == GivingUp[..4];
    }
  }
}
