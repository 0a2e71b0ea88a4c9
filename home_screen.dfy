/** The home screen: three filters over the moments give the summary counts,
    and the full list is rendered as cards unless the moments are loading. */
module HomeScreen {
  import opened Records
  import opened Seqs
  import MomentCard

  /** `m.status === 'in-progress' || !m.status`: in progress, absent or empty. */
  predicate IsActive(m: Moment)
    ensures IsActive(m) <==> m.status in {None, Some(""), Some(InProgress)}
    ensures IsActive(m) ==> !IsCompleted(m)
  {
    IsInProgress(m) || StatusFalsy(m)
  }

  /** `m.status === 'completed'`. */
  predicate IsCompleted(m: Moment)
    ensures IsCompleted(m) ==> m.status.Some? && m.status.value == Completed
  {
    m.status == Some(Completed)
  }

  /** `m.nftMinted` is truthy. */
  predicate IsMinted(m: Moment)
    ensures IsMinted(m) <==> m.nftMinted
  {
    m.nftMinted
  }

  function ActiveMoments(moments: seq<Moment>): (r: seq<Moment>)
    ensures forall m :: m in r <==> m in moments && IsActive(m)
    ensures IsSubsequence(r, moments)
  {
    Filter(moments, IsActive)
  }

  function CompletedMoments(moments: seq<Moment>): (r: seq<Moment>)
    ensures forall m :: m in r <==> m in moments && IsCompleted(m)
    ensures IsSubsequence(r, moments)
  {
    Filter(moments, IsCompleted)
  }

  function MintedMoments(moments: seq<Moment>): (r: seq<Moment>)
    ensures forall m :: m in r <==> m in moments && IsMinted(m)
    ensures IsSubsequence(r, moments)
  {
    Filter(moments, IsMinted)
  }

  /** Neither active nor completed: some other status string. */
  predicate IsUncounted(m: Moment)
  {
    !IsActive(m) && !IsCompleted(m)
  }

  /** The moments that neither summary status count picks up. */
  function UncountedMoments(moments: seq<Moment>): seq<Moment>
  {
    Filter(moments, IsUncounted)
  }

  datatype HomeView =
    | LoadingView
    | MomentsView(cards: seq<MomentCard.Card>, activeCount: nat, completedCount: nat, mintedCount: nat)

  /** What the screen shows: the loading text, or one card per moment in
      list order together with the three counts. */
  function HomeViewOf(moments: seq<Moment>, loading: bool, now: int): (v: HomeView)
    ensures v.LoadingView? <==> loading
    ensures v.MomentsView? ==>
              && |v.cards| == |moments|
              && (forall i :: 0 <= i < |moments| ==> v.cards[i] == MomentCard.CardOf(moments[i], now))
              && v.activeCount == |ActiveMoments(moments)|
              && v.completedCount == |CompletedMoments(moments)|
              && v.mintedCount == |MintedMoments(moments)|
              && v.activeCount + v.completedCount <= |moments|
              && v.mintedCount <= |moments|
  {
    if loading then LoadingView
    else
      StatusCountsBound(moments);
      MomentsView(
        seq(|moments|, i requires 0 <= i < |moments| => MomentCard.CardOf(moments[i], now)),
        |ActiveMoments(moments)|, |CompletedMoments(moments)|, |MintedMoments(moments)|)
  }

  /** Each summary list holds exactly the moments passing its test, in the
      order of the full list. */
  lemma SummaryListsAreOrderedSelections(moments: seq<Moment>, m: Moment)
    ensures m in ActiveMoments(moments) <==> m in moments && (m.status == Some(InProgress) || m.status.None? || m.status == Some(""))
    ensures m in CompletedMoments(moments) <==> m in moments && m.status == Some(Completed)
    ensures m in MintedMoments(moments) <==> m in moments && m.nftMinted
    ensures IsSubsequence(ActiveMoments(moments), moments)
    ensures IsSubsequence(CompletedMoments(moments), moments)
    ensures IsSubsequence(MintedMoments(moments), moments)
  {
  }

  /** No moment is both active and completed. */
  lemma ActiveCompletedDisjoint(moments: seq<Moment>, m: Moment)
    ensures !(m in ActiveMoments(moments) && m in CompletedMoments(moments))
  {
  }

  /** A moment whose status is neither absent, empty, in-progress nor
      completed is counted in neither status group. */
  lemma OtherStatusCountedNowhere(moments: seq<Moment>, m: Moment)
    requires m.status.Some? && m.status.value !in {"", InProgress, Completed}
    ensures m !in ActiveMoments(moments) && m !in CompletedMoments(moments)
  {
  }

  /** Active, completed and the rest split the list, so the two status counts
      never exceed the number of moments. */
  lemma StatusCountsBound(moments: seq<Moment>)
    ensures |ActiveMoments(moments)| + |CompletedMoments(moments)| + |UncountedMoments(moments)| == |moments|
    ensures |ActiveMoments(moments)| + |CompletedMoments(moments)| <= |moments|
  {
    FilterPartitionCount(moments, IsActive, IsCompleted, IsUncounted);
  }

  /** Minted is independent of status: one moment can be counted both as
      active and as minted. */
  lemma MintedMomentCanBeActive()
    ensures exists moments: seq<Moment>, m: Moment :: m in ActiveMoments(moments) && m in MintedMoments(moments)
  {
    var m := Moment("t", "", "event", None, None, None, None, false, "", None, None, None, None, None, true);
    assert m in ActiveMoments([m]) && m in MintedMoments([m]);
  }

  /** Whether a moment counts as minted does not depend on its status. */
  lemma MintedIgnoresStatus(m: Moment, status: Option<string>)
    ensures IsMinted(m.(status := status)) == IsMinted(m)
  {
  }
}
