/**
 * Which option wins: the last occurrence of an option on the command line
 * decides the field it sets, over what the defaults and the environment left
 * there, and fields no option names keep those earlier values.
 */
module Precedence {
  import opened CString
  import opened Types
  import opened Validators
  import opened Tables
  import opened Scan

  /** The argument of the last option of `ts` carrying `tag`, or None without one. */
  function LastArg(ts: seq<Token>, tag: Tag): Option<OptArg>
    decreases |ts|
  {
    if ts == [] then None
    else if ts[|ts| - 1].desc.tag == tag then Some(ts[|ts| - 1].arg)
    else LastArg(ts[..|ts| - 1], tag)
  }

  /** The number the last `tag` option gives, or `dflt` without one. */
  function LastInt(ts: seq<Token>, tag: Tag, dflt: int): int {
    if LastArg(ts, tag).Some? then ArgNumber(LastArg(ts, tag).value) else dflt
  }

  /** The text the last `tag` option gives, or None without one. */
  function LastText(ts: seq<Token>, tag: Tag): Option<string> {
    if LastArg(ts, tag).Some? then Some(ArgText(LastArg(ts, tag).value)) else None
  }

  /** The last option is found from the front: in the tail if it is there, else the head. */
  lemma {:induction false} LastArgCons(ts: seq<Token>, tag: Tag)
    requires ts != []
    ensures LastArg(ts, tag) == if LastArg(ts[1..], tag).Some? then LastArg(ts[1..], tag)
                                else if ts[0].desc.tag == tag then Some(ts[0].arg) else None
    decreases |ts|
  {
    var n := |ts| - 1;
    if n == 0 {
      assert ts[1..] == [];
    } else {
      assert ts[1..][n - 1] == ts[n];
      assert ts[1..][..n - 1] == ts[..n][1..];
      if ts[n].desc.tag != tag {
        LastArgCons(ts[..n], tag);
        assert ts[..n][0] == ts[0];
      }
    }
  }

  /** `LastArg` names a token that carries `tag` and is followed by none. */
  lemma {:induction false} LastArgIsLast(ts: seq<Token>, tag: Tag, k: nat)
    requires k < |ts| && ts[k].desc.tag == tag
    requires forall j :: k < j < |ts| ==> ts[j].desc.tag != tag
    ensures LastArg(ts, tag) == Some(ts[k].arg)
    decreases |ts|
  {
    if k < |ts| - 1 {
      var n := |ts| - 1;
      assert ts[..n][k] == ts[k];
      forall j | k < j < n ensures ts[..n][j].desc.tag != tag { assert ts[..n][j] == ts[j]; }
      LastArgIsLast(ts[..n], tag, k);
    }
  }

  /** Without a `tag` option there is no last one. */
  lemma {:induction false} LastArgAbsent(ts: seq<Token>, tag: Tag)
    requires !HasTag(ts, tag)
    ensures LastArg(ts, tag) == None
    decreases |ts|
  {
    if ts != [] {
      var n := |ts| - 1;
      assert ts[n].desc.tag != tag;
      forall j | 0 <= j < n ensures ts[..n][j].desc.tag != tag { assert ts[..n][j] == ts[j]; }
      LastArgAbsent(ts[..n], tag);
    }
  }

  /** The last -o, -i, -e, --mem or --tmp has a text, since every well-formed one has. */
  lemma {:induction false} LastTextPresent(ts: seq<Token>, tag: Tag)
    requires forall i :: 0 <= i < |ts| ==> TextPresent(ts[i])
    requires NeedsText(tag)
    ensures LastText(ts, tag).Some? ==> |LastText(ts, tag).value| > 0
    decreases |ts|
  {
    if ts != [] {
      var n := |ts| - 1;
      if ts[n].desc.tag != tag {
        assert forall j :: 0 <= j < n ==> ts[..n][j] == ts[j];
        LastTextPresent(ts[..n], tag);
      }
    }
  }

  /** A first-pass step stores what popt stores and leaves the switch fields alone. */
  lemma Step1Fields(s: Scan1, t: Token)
    requires WellFormed(t)
    ensures var o := Step1(s, t).opt;
      && o.nprocs == (if t.desc.tag == TNprocs then ArgNumber(t.arg) else s.opt.nprocs)
      && o.cpus == (if t.desc.tag == TCpus then ArgNumber(t.arg) else s.opt.cpus)
      && o.nodes == (if t.desc.tag == TNodes then ArgNumber(t.arg) else s.opt.nodes)
      && o.mincpus == (if t.desc.tag == TMincpus then ArgNumber(t.arg) else s.opt.mincpus)
      && o.partition == (if t.desc.tag == TPartition then Some(ArgText(t.arg)) else s.opt.partition)
      && SwitchFields(o) == SwitchFields(s.opt)
  {
    PoptStoreCounts(s.opt, t);
    PoptStoreLeaves(s.opt, t);
  }

  /**
   * A first pass that runs to the end leaves each count and the partition
   * at the last option given for it, else where it was, and the switch
   * fields untouched.
   */
  lemma {:induction false} Pass1Fields(ts: seq<Token>, s: Scan1)
    requires AllWellFormed(ts) && Pass1(ts, s).exit.None?
    ensures var o := Pass1(ts, s).opt;
      && o.nprocs == LastInt(ts, TNprocs, s.opt.nprocs)
      && o.cpus == LastInt(ts, TCpus, s.opt.cpus)
      && o.nodes == LastInt(ts, TNodes, s.opt.nodes)
      && o.mincpus == LastInt(ts, TMincpus, s.opt.mincpus)
      && o.partition == (var a := LastText(ts, TPartition); if a.Some? then a else s.opt.partition)
      && SwitchFields(o) == SwitchFields(s.opt)
    decreases |ts|
  {
    if ts == [] {
    } else {
      AllWellFormedTail(ts);
      var s1 := Step1(s, ts[0]);
      assert s1.exit.None?;
      Step1Fields(s, ts[0]);
      Pass1Fields(ts[1..], s1);
      LastArgCons(ts, TNprocs);
      LastArgCons(ts, TCpus);
      LastArgCons(ts, TNodes);
      LastArgCons(ts, TMincpus);
      LastArgCons(ts, TPartition);
    }
  }

  /** The switch leaves the counts and the partition as popt stored them. */
  lemma Switch2Numbers(s: Scan2, o: Opt, t: Token)
    requires TextPresent(t)
    ensures Switch2(s, o, t).opt.nprocs == o.nprocs && Switch2(s, o, t).opt.cpus == o.cpus
    ensures Switch2(s, o, t).opt.nodes == o.nodes && Switch2(s, o, t).opt.mincpus == o.mincpus
    ensures Switch2(s, o, t).opt.partition == o.partition
  {
  }

  /** What one second-pass step does to the counts: popt's store, untouched by the switch. */
  lemma Step2Numbers(s: Scan2, t: Token)
    requires WellFormed(t)
    ensures Step2(s, t).opt.nprocs == if t.desc.tag == TNprocs then ArgNumber(t.arg) else s.opt.nprocs
    ensures Step2(s, t).opt.cpus == if t.desc.tag == TCpus then ArgNumber(t.arg) else s.opt.cpus
    ensures Step2(s, t).opt.nodes == if t.desc.tag == TNodes then ArgNumber(t.arg) else s.opt.nodes
    ensures Step2(s, t).opt.mincpus == if t.desc.tag == TMincpus then ArgNumber(t.arg) else s.opt.mincpus
    ensures Step2(s, t).opt.partition
              == if t.desc.tag == TPartition then Some(ArgText(t.arg)) else s.opt.partition
  {
    PoptStoreCounts(s.opt, t);
    Switch2Numbers(s, PoptStore(s.opt, t), t);
  }

  /**
   * The I/O fields of one stream as the last option for it left them: the
   * classification and name `verify_iotype` gives its text, or the old
   * values without such an option.
   */
  predicate StreamIs(io: IoType, name: Option<string>, a: Option<string>, io0: IoType, name0: Option<string>) {
    if a.Some? then |a.value| > 0 && io == VerifyIoType(a.value).io && name == Some(VerifyIoType(a.value).name)
    else io == io0 && name == name0
  }

  /** -o, -i and -e classify their text; every other option leaves the streams alone. */
  lemma Switch2Streams(s: Scan2, o: Opt, t: Token)
    requires TextPresent(t)
    ensures StreamIs(Switch2(s, o, t).opt.output, Switch2(s, o, t).opt.ofname,
                     if t.desc.tag == TOutput then Some(ArgText(t.arg)) else None, o.output, o.ofname)
    ensures StreamIs(Switch2(s, o, t).opt.input, Switch2(s, o, t).opt.ifname,
                     if t.desc.tag == TInput then Some(ArgText(t.arg)) else None, o.input, o.ifname)
    ensures StreamIs(Switch2(s, o, t).opt.error, Switch2(s, o, t).opt.efname,
                     if t.desc.tag == TError then Some(ArgText(t.arg)) else None, o.error, o.efname)
  {
  }

  /** What one second-pass step does to the stream fields. */
  lemma Step2Streams(s: Scan2, t: Token)
    requires WellFormed(t)
    ensures StreamIs(Step2(s, t).opt.output, Step2(s, t).opt.ofname,
                     if t.desc.tag == TOutput then Some(ArgText(t.arg)) else None, s.opt.output, s.opt.ofname)
    ensures StreamIs(Step2(s, t).opt.input, Step2(s, t).opt.ifname,
                     if t.desc.tag == TInput then Some(ArgText(t.arg)) else None, s.opt.input, s.opt.ifname)
    ensures StreamIs(Step2(s, t).opt.error, Step2(s, t).opt.efname,
                     if t.desc.tag == TError then Some(ArgText(t.arg)) else None, s.opt.error, s.opt.efname)
  {
    PoptStoreLeaves(s.opt, t);
    Switch2Streams(s, PoptStore(s.opt, t), t);
  }

  /** -m, -D, --mem and --tmp set their field from their text; nothing else touches those. */
  lemma Switch2Placement(s: Scan2, o: Opt, t: Token)
    requires TextPresent(t)
    ensures Switch2(s, o, t).opt.distribution
              == if t.desc.tag == TDistrib then VerifyDistType(ArgText(t.arg)) else o.distribution
    ensures Switch2(s, o, t).opt.cwd == if t.desc.tag == TCddir then ArgText(t.arg) else o.cwd
    ensures Switch2(s, o, t).opt.realmem
              == if t.desc.tag == TRealmem then ToBytes(ArgText(t.arg)) else o.realmem
    ensures Switch2(s, o, t).opt.tmpdisk
              == if t.desc.tag == TTmpdisk then ToBytes(ArgText(t.arg)) else o.tmpdisk
  {
  }

  /** What one second-pass step does to the distribution, the working directory and the sizes. */
  lemma Step2Placement(s: Scan2, t: Token)
    requires WellFormed(t)
    ensures Step2(s, t).opt.distribution
              == if t.desc.tag == TDistrib then VerifyDistType(ArgText(t.arg)) else s.opt.distribution
    ensures Step2(s, t).opt.cwd == if t.desc.tag == TCddir then ArgText(t.arg) else s.opt.cwd
    ensures Step2(s, t).opt.realmem
              == SizeOr(if t.desc.tag == TRealmem then Some(ArgText(t.arg)) else None, s.opt.realmem)
    ensures Step2(s, t).opt.tmpdisk
              == SizeOr(if t.desc.tag == TTmpdisk then Some(ArgText(t.arg)) else None, s.opt.tmpdisk)
  {
    PoptStoreLeaves(s.opt, t);
    Switch2Placement(s, PoptStore(s.opt, t), t);
  }

  /** The size a --mem or --tmp text gives, or `m0` without one. */
  function SizeOr(a: Option<string>, m0: int): int {
    if a.Some? && |a.value| > 0 then ToBytes(a.value) else m0
  }

  /** A step of a pass that is not rejected does not end it. */
  lemma Pass2Unfold(ts: seq<Token>, s: Scan2)
    requires AllWellFormed(ts) && ts != [] && s.exit.None? && !AnyRejected(ts)
    ensures WellFormed(ts[0]) && AllWellFormed(ts[1..]) && !AnyRejected(ts[1..])
    ensures Step2(s, ts[0]).exit.None?
    ensures Pass2(ts, s) == Pass2(ts[1..], Step2(s, ts[0]))
  {
    AllWellFormedTail(ts);
    AnyRejectedCons(ts);
    Step2Exit(s, ts[0]);
  }

  /**
   * A second pass without rejection leaves each count at the last option
   * given for it, else where the first pass left it.
   */
  lemma {:induction false} Pass2Numbers(ts: seq<Token>, s: Scan2)
    requires AllWellFormed(ts) && s.exit.None? && !AnyRejected(ts)
    ensures var o := Pass2(ts, s).opt;
      && o.nprocs == LastInt(ts, TNprocs, s.opt.nprocs)
      && o.cpus == LastInt(ts, TCpus, s.opt.cpus)
      && o.nodes == LastInt(ts, TNodes, s.opt.nodes)
      && o.mincpus == LastInt(ts, TMincpus, s.opt.mincpus)
    decreases |ts|
  {
    if ts != [] {
      Pass2Unfold(ts, s);
      Step2Numbers(s, ts[0]);
      Pass2Numbers(ts[1..], Step2(s, ts[0]));
      LastArgCons(ts, TNprocs);
      LastArgCons(ts, TCpus);
      LastArgCons(ts, TNodes);
      LastArgCons(ts, TMincpus);
    }
  }

  /**
   * A second pass without rejection leaves each stream as the last -o, -i
   * or -e option for it decided, else as it was.
   */
  lemma {:induction false} Pass2Streams(ts: seq<Token>, s: Scan2)
    requires AllWellFormed(ts) && s.exit.None? && !AnyRejected(ts)
    ensures var o := Pass2(ts, s).opt;
      && StreamIs(o.output, o.ofname, LastText(ts, TOutput), s.opt.output, s.opt.ofname)
      && StreamIs(o.input, o.ifname, LastText(ts, TInput), s.opt.input, s.opt.ifname)
      && StreamIs(o.error, o.efname, LastText(ts, TError), s.opt.error, s.opt.efname)
    decreases |ts|
  {
    if ts != [] {
      Pass2Unfold(ts, s);
      Step2Streams(s, ts[0]);
      Pass2Streams(ts[1..], Step2(s, ts[0]));
      LastArgCons(ts, TOutput);
      LastArgCons(ts, TInput);
      LastArgCons(ts, TError);
    }
  }

  /**
   * A second pass without rejection leaves the distribution, the working
   * directory and the partition as the last -m, -D and -p gave them, else as
   * they were.
   */
  lemma {:induction false} Pass2Placement(ts: seq<Token>, s: Scan2)
    requires AllWellFormed(ts) && s.exit.None? && !AnyRejected(ts)
    ensures var o := Pass2(ts, s).opt;
      && o.distribution == (var a := LastText(ts, TDistrib);
                            if a.Some? then VerifyDistType(a.value) else s.opt.distribution)
      && o.cwd == (var a := LastText(ts, TCddir); if a.Some? then a.value else s.opt.cwd)
      && o.partition == (var a := LastText(ts, TPartition); if a.Some? then a else s.opt.partition)
    decreases |ts|
  {
    if ts != [] {
      Pass2Unfold(ts, s);
      Step2Placement(s, ts[0]);
      Step2Numbers(s, ts[0]);
      Pass2Placement(ts[1..], Step2(s, ts[0]));
      LastArgCons(ts, TDistrib);
      LastArgCons(ts, TCddir);
      LastArgCons(ts, TPartition);
    }
  }

  /**
   * A second pass without rejection leaves --mem and --tmp at what
   * `_to_bytes` made of the last text given for each, else as they were.
   */
  lemma {:induction false} Pass2Sizes(ts: seq<Token>, s: Scan2)
    requires AllWellFormed(ts) && s.exit.None? && !AnyRejected(ts)
    ensures Pass2(ts, s).opt.realmem == SizeOr(LastText(ts, TRealmem), s.opt.realmem)
    ensures Pass2(ts, s).opt.tmpdisk == SizeOr(LastText(ts, TTmpdisk), s.opt.tmpdisk)
    decreases |ts|
  {
    if ts != [] {
      Pass2Unfold(ts, s);
      var s1 := Step2(s, ts[0]);
      Step2Placement(s, ts[0]);
      Pass2Sizes(ts[1..], s1);
      forall i | 0 <= i < |ts[1..]| ensures TextPresent(ts[1..][i]) {
        assert WellFormed(ts[1..][i]);
      }
      LastTextPresent(ts[1..], TRealmem);
      LastTextPresent(ts[1..], TTmpdisk);
      LastArgCons(ts, TRealmem);
      LastArgCons(ts, TTmpdisk);
    }
  }
}
