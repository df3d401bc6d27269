/**
 Cancelling an install races with the commit of its pointer. Both take the
 lock of the commit marker, so one of them wins and the loser is told.
 */
module InstallCancellation {

  datatype Call = Cancel | Commit(renames: bool)

  datatype Commitment = Commitment(cancelled: bool, committed: bool, published: bool)

  function AfterCall(s: Commitment, c: Call): Commitment {
    match c
    case Cancel => if s.committed then s else s.(cancelled := true)
    case Commit(renames) => if s.cancelled || !renames then s else s.(committed := true, published := true)
  }

  function AfterCalls(calls: seq<Call>, n: nat): Commitment
    requires n <= |calls|
  {
    if n == 0 then Commitment(false, false, false) else AfterCall(AfterCalls(calls, n - 1), calls[n - 1])
  }

  predicate Accepted(calls: seq<Call>, i: nat)
    requires i < |calls| && calls[i].Cancel?
  {
    !AfterCalls(calls, i).committed
  }

  lemma {:induction false} CommitmentInv(calls: seq<Call>, n: nat)
    requires n <= |calls|
    ensures AfterCalls(calls, n).committed == AfterCalls(calls, n).published
    ensures !(AfterCalls(calls, n).cancelled && AfterCalls(calls, n).published)
  {
    if n > 0 { CommitmentInv(calls, n - 1); }
  }

  lemma {:induction false} FlagsStay(calls: seq<Call>, i: nat, n: nat)
    requires i <= n <= |calls|
    ensures AfterCalls(calls, i).cancelled ==> AfterCalls(calls, n).cancelled
    ensures AfterCalls(calls, i).published ==> AfterCalls(calls, n).published
  {
    if i < n { FlagsStay(calls, i, n - 1); }
  }

  /** However cancellations and commit attempts interleave: an accepted cancellation means the pointer
      is never published, before or after it; a refused one means it already was. */
  lemma {:induction false} CancellationLinearized(calls: seq<Call>, i: nat, n: nat)
    requires i < |calls| && calls[i].Cancel? && n <= |calls|
    ensures Accepted(calls, i) ==> !AfterCalls(calls, n).published
    ensures !Accepted(calls, i) ==> AfterCalls(calls, i).published
  {
    CommitmentInv(calls, i);
    CommitmentInv(calls, n);
    if n <= i { FlagsStay(calls, n, i); } else { FlagsStay(calls, i + 1, n); }
  }

  /** The cancellation flag and the commit marker, both guarded by the marker's lock. */
  class InstallProgress {
    var cancelled: bool
    var committed: bool
    var published: bool

    function State(): Commitment
      reads this
    {
      Commitment(cancelled, committed, published)
    }

    constructor ()
      ensures State() == Commitment(false, false, false)
    {
      cancelled, committed, published := false, false, false;
    }

    method CancelBeforeActivationCommit() returns (accepted: bool)
      modifies this
      ensures State() == AfterCall(old(State()), Cancel) && accepted == !old(committed)
    {
      if committed { return false; }
      cancelled := true;
      accepted := true;
    }

    method CommitActivation(renames: bool) returns (ok: bool)
      modifies this
      ensures State() == AfterCall(old(State()), Commit(renames)) && ok == (!old(cancelled) && renames)
    {
      if cancelled { return false; }
      if !renames { return false; }
      published := true;
      committed := true;
      ok := true;
    }
  }
}
