/**
 * `opt_verify`: the checks made once all options are in, and the
 * reconciliation of the process and node counts that follows them.
 */
module Verify {
  import opened Types
  import opened Validators

  /** Why `opt_verify` reports failure; each one is logged and clears `verified`. */
  datatype Violation = AllocationWithAttach | ConstraintsWithAttach | NoRemoteCommand
                     | BadNprocs | BadCpus | BadNodes

  /** The record afterwards, the failures in the order they are logged, and the assignments made for an allocate-mode shell. */
  datatype Verdict = Verdict(opt: Opt, violations: seq<Violation>, exports: seq<Export>)

  /**
   * The count massage: -N without -n runs one process per node; with both,
   * fewer processes than nodes lowers the node count.
   */
  function Reconcile(o: Opt, nodesSet: bool, procsSet: bool): Opt {
    if nodesSet && !procsSet then o.(nprocs := o.nodes)
    else if nodesSet && procsSet && o.nprocs < o.nodes then o.(nodes := o.nprocs)
    else o
  }

  /**
   * `opt_verify`. `given` stands for `constraints_given()`, which is defined
   * outside opt.c and reads only the constraint fields. The checks on the
   * counts read the values from before the reconciliation.
   */
  function OptVerify(o: Opt, mode: Mode, remoteArgc: nat,
                     nodesSet: bool, cpusSet: bool, procsSet: bool,
                     given: Constraints -> bool): Verdict
  {
    if mode == ModeAttach then
      Verdict(o,
              (if nodesSet || cpusSet || procsSet then [AllocationWithAttach] else [])
              + (if given(ConstraintsOf(o)) then [ConstraintsWithAttach] else []),
              [])
    else
      var exports := if mode == ModeAllocate then AllocateModeEnv(o) else [];
      var command := if mode != ModeAllocate && remoteArgc == 0 then [NoRemoteCommand] else [];
      var counts := (if o.nprocs <= 0 then [BadNprocs] else [])
                    + (if o.cpus <= 0 then [BadCpus] else [])
                    + (if o.nodes < 0 then [BadNodes] else []);
      Verdict(Reconcile(o, nodesSet, procsSet), command + counts, exports)
  }

  /** The value `opt_verify` returns. */
  predicate Verified(v: Verdict) {
    v.violations == []
  }

  /**
   * The verdict in declarative form: attach mode accepts exactly when no
   * count and no constraint was given; the other modes accept exactly when
   * (outside allocate mode) a remote command is present and the counts as
   * given are realistic.
   */
  lemma VerifyAccepts(o: Opt, mode: Mode, remoteArgc: nat,
                      nodesSet: bool, cpusSet: bool, procsSet: bool, given: Constraints -> bool)
    ensures var v := OptVerify(o, mode, remoteArgc, nodesSet, cpusSet, procsSet, given);
      Verified(v) <==>
        if mode == ModeAttach then !nodesSet && !cpusSet && !procsSet && !given(ConstraintsOf(o))
        else (mode == ModeNormal ==> remoteArgc > 0) && o.nprocs > 0 && o.cpus > 0 && o.nodes >= 0
  {
  }

  /** Attach mode never touches the counts, nor anything else, and exports nothing. */
  lemma VerifyAttachKeeps(o: Opt, remoteArgc: nat,
                          nodesSet: bool, cpusSet: bool, procsSet: bool, given: Constraints -> bool)
    ensures var v := OptVerify(o, ModeAttach, remoteArgc, nodesSet, cpusSet, procsSet, given);
      v.opt == o && v.exports == []
  {
  }

  /** Outside attach mode the record comes out reconciled. */
  lemma VerifyReconciles(o: Opt, mode: Mode, remoteArgc: nat,
                         nodesSet: bool, cpusSet: bool, procsSet: bool, given: Constraints -> bool)
    requires mode != ModeAttach
    ensures OptVerify(o, mode, remoteArgc, nodesSet, cpusSet, procsSet, given).opt
              == Reconcile(o, nodesSet, procsSet)
  {
  }

  /**
   * The massage changes only `nprocs` and `nodes`; with -N the node count
   * never exceeds the process count afterwards; without -N nothing changes.
   */
  lemma ReconcileEffect(o: Opt, nodesSet: bool, procsSet: bool)
    ensures var r := Reconcile(o, nodesSet, procsSet);
      && r == o.(nprocs := r.nprocs, nodes := r.nodes)
      && (nodesSet ==> r.nodes <= r.nprocs)
      && (nodesSet && !procsSet ==> r.nprocs == o.nodes && r.nodes == o.nodes)
      && (nodesSet && procsSet ==>
            r.nprocs == o.nprocs && r.nodes == (if o.nprocs < o.nodes then o.nprocs else o.nodes))
      && (!nodesSet ==> r == o)
  {
  }

  /** Only allocate mode exports, and then exactly `set_allocate_mode_env_vars`'s assignments. */
  lemma VerifyExports(o: Opt, mode: Mode, remoteArgc: nat,
                      nodesSet: bool, cpusSet: bool, procsSet: bool, given: Constraints -> bool)
    ensures var v := OptVerify(o, mode, remoteArgc, nodesSet, cpusSet, procsSet, given);
      v.exports == if mode == ModeAllocate then AllocateModeEnv(o) else []
  {
  }

  /**
   * The checks come before the massage, so `-N 0` alone (nodes 0, the
   * default one process) is accepted and leaves zero processes to run.
   */
  lemma ZeroNodesAccepted(o: Opt, given: Constraints -> bool)
    requires o.nprocs == 1 && o.cpus == 1 && o.nodes == 0
    ensures var v := OptVerify(o, ModeNormal, 1, true, false, false, given);
      Verified(v) && v.opt.nprocs == 0
  {
  }

  /** A normal run without a remote command always fails. */
  lemma NormalNeedsCommand(o: Opt, nodesSet: bool, cpusSet: bool, procsSet: bool, given: Constraints -> bool)
    ensures var v := OptVerify(o, ModeNormal, 0, nodesSet, cpusSet, procsSet, given);
      !Verified(v) && v.violations[0] == NoRemoteCommand
  {
  }
}
