/**
 * The two `poptGetNextOpt` loops of `opt_args`. The first pass only looks
 * for the run mode (and for `--version`); the context is then reset and the
 * second pass resolves the remaining options. popt stores every option that
 * has a field pointer on both passes before its value reaches the switch.
 */
module Scan {
  import opened CString
  import opened Types
  import opened Validators
  import opened Tables

  /** Some token of `ts` carries the value `tag`. */
  predicate HasTag(ts: seq<Token>, tag: Tag) {
    exists i :: 0 <= i < |ts| && ts[i].desc.tag == tag
  }

  lemma HasTagCons(ts: seq<Token>, tag: Tag)
    requires ts != []
    ensures HasTag(ts, tag) <==> ts[0].desc.tag == tag || HasTag(ts[1..], tag)
  {
    if HasTag(ts, tag) && ts[0].desc.tag != tag {
      var i :| 0 <= i < |ts| && ts[i].desc.tag == tag;
      assert ts[1..][i - 1] == ts[i];
    }
    if HasTag(ts[1..], tag) {
      var i :| 0 <= i < |ts| - 1 && ts[1..][i].desc.tag == tag;
      assert ts[i + 1] == ts[1..][i];
    }
  }

  /** Where the first pass is: the record as popt left it, the mode, and an exit status once one is due. */
  datatype Scan1 = Scan1(opt: Opt, mode: Mode, exit: Option<int>)

  /**
   * One turn of the first loop. `--version` exits with 0; attach after
   * allocate, or allocate after attach, exits with 1; otherwise attach and
   * allocate select their mode.
   */
  function Step1(s: Scan1, t: Token): Scan1 {
    var o := PoptStore(s.opt, t);
    match t.desc.tag
    case TVersion => s.(opt := o, exit := Some(0))
    case TAttach =>
      if o.allocate then s.(opt := o, exit := Some(1))
      else Scan1(o.(attach := Some(ArgText(t.arg))), ModeAttach, None)
    case TAllocate =>
      if o.attach.Some? then s.(opt := o, exit := Some(1))
      else Scan1(o, ModeAllocate, None)
    case _ => s.(opt := o)
  }

  /** The first loop over the tokens, up to the end or the first exit. */
  function Pass1(ts: seq<Token>, s: Scan1): Scan1
    decreases |ts|
  {
    if ts == [] || s.exit.Some? then s else Pass1(ts[1..], Step1(s, ts[0]))
  }

  /** The mode the recorded attach id and allocate flag stand for. */
  function ModeOf(o: Opt): Mode {
    if o.attach.Some? then ModeAttach else if o.allocate then ModeAllocate else ModeNormal
  }

  /**
   * What holds while the first pass runs on: nothing is due, attach and
   * allocate have not both been seen, and the mode is the one they select.
   */
  predicate Running1(s: Scan1) {
    s.exit.None? && !(s.opt.allocate && s.opt.attach.Some?) && s.mode == ModeOf(s.opt)
  }

  /**
   * One first-pass step from a consistent state: --version exits with 0,
   * the second of --attach and --allocate exits with 1, and otherwise the
   * allocate flag and the attach id record what was seen.
   */
  lemma Step1Mode(s: Scan1, t: Token)
    requires WellFormed(t) && Running1(s)
    ensures Step1(s, t).exit == if t.desc.tag == TVersion then Some(0)
                                else if (t.desc.tag == TAttach && s.opt.allocate)
                                     || (t.desc.tag == TAllocate && s.opt.attach.Some?) then Some(1)
                                else None
    ensures Step1(s, t).exit.None? ==> Running1(Step1(s, t))
    ensures Step1(s, t).exit.None? ==>
              && Step1(s, t).opt.allocate == (s.opt.allocate || t.desc.tag == TAllocate)
              && Step1(s, t).opt.attach.Some? == (s.opt.attach.Some? || t.desc.tag == TAttach)
  {
    PoptStoreModeFields(s.opt, t);
  }

  /** The state opt_default leaves for the first pass: neither attach nor allocate. */
  predicate Fresh1(s: Scan1) {
    s.exit.None? && !s.opt.allocate && s.opt.attach.None? && s.mode == ModeNormal
  }

  lemma {:induction false} Pass1Append(a: seq<Token>, b: seq<Token>, s: Scan1)
    ensures Pass1(a + b, s) == Pass1(b, Pass1(a, s))
    decreases |a|
  {
    if a == [] {
      assert a + b == b;
    } else if s.exit.Some? {
      assert Pass1(a + b, s) == s;
      if b != [] { assert Pass1(b, s) == s; }
    } else {
      assert (a + b)[1..] == a[1..] + b;
      Pass1Append(a[1..], b, Step1(s, a[0]));
    }
  }

  /** Once an exit is due the remaining tokens are never looked at. */
  lemma Pass1StopsAt(ts: seq<Token>, k: nat, s: Scan1)
    requires k < |ts| && Pass1(ts[..k + 1], s).exit.Some?
    ensures Pass1(ts, s) == Pass1(ts[..k + 1], s)
  {
    Pass1Append(ts[..k + 1], ts[k + 1..], s);
    assert ts[..k + 1] + ts[k + 1..] == ts;
  }

  /** One token at the end of a prefix. */
  lemma Pass1Snoc(ts: seq<Token>, k: nat, s: Scan1)
    requires k < |ts|
    ensures Pass1(ts[..k + 1], s) == Pass1([ts[k]], Pass1(ts[..k], s))
  {
    Pass1Append(ts[..k], [ts[k]], s);
    assert ts[..k] + [ts[k]] == ts[..k + 1];
  }

  /**
   * Without `--version` and without both attach and allocate, the first
   * pass runs to the end; allocate and attach are recorded exactly when
   * they occur, and the mode is the one they select.
   */
  lemma {:induction false} Pass1Clean(ts: seq<Token>, s: Scan1)
    requires AllWellFormed(ts) && Running1(s)
    requires !HasTag(ts, TVersion)
    requires !((s.opt.allocate || HasTag(ts, TAllocate)) && (s.opt.attach.Some? || HasTag(ts, TAttach)))
    ensures Running1(Pass1(ts, s))
    ensures Pass1(ts, s).opt.allocate == (s.opt.allocate || HasTag(ts, TAllocate))
    ensures Pass1(ts, s).opt.attach.Some? == (s.opt.attach.Some? || HasTag(ts, TAttach))
    decreases |ts|
  {
    if ts != [] {
      AllWellFormedTail(ts);
      Step1Mode(s, ts[0]);
      HasTagCons(ts, TVersion);
      HasTagCons(ts, TAllocate);
      HasTagCons(ts, TAttach);
      Pass1Clean(ts[1..], Step1(s, ts[0]));
    }
  }

  /**
   * Without `--version`, once the seen and the remaining tokens name both
   * attach and allocate, in either order, the first pass exits with 1.
   */
  lemma {:induction false} Pass1Conflicting(ts: seq<Token>, s: Scan1)
    requires AllWellFormed(ts) && Running1(s)
    requires !HasTag(ts, TVersion)
    requires (s.opt.allocate || HasTag(ts, TAllocate)) && (s.opt.attach.Some? || HasTag(ts, TAttach))
    ensures Pass1(ts, s).exit == Some(1)
    decreases |ts|
  {
    if ts == [] {
      assert false;
    }
    AllWellFormedTail(ts);
    Step1Mode(s, ts[0]);
    HasTagCons(ts, TVersion);
    HasTagCons(ts, TAllocate);
    HasTagCons(ts, TAttach);
    var s' := Step1(s, ts[0]);
    if s'.exit.None? {
      Pass1Conflicting(ts[1..], s');
    }
  }

  /**
   * From the defaults and without `--version`: the first pass exits (with
   * 1) exactly when both attach and allocate occur; otherwise the mode is
   * ATTACH if attach occurred, ALLOCATE if allocate did, and NORMAL else.
   */
  lemma Pass1Outcome(ts: seq<Token>, s: Scan1)
    requires AllWellFormed(ts) && Fresh1(s)
    requires !HasTag(ts, TVersion)
    ensures Pass1(ts, s).exit.Some? <==> HasTag(ts, TAttach) && HasTag(ts, TAllocate)
    ensures Pass1(ts, s).exit.Some? ==> Pass1(ts, s).exit == Some(1)
    ensures Pass1(ts, s).exit.None? ==>
              Pass1(ts, s).mode == if HasTag(ts, TAttach) then ModeAttach
                                   else if HasTag(ts, TAllocate) then ModeAllocate
                                   else ModeNormal
  {
    if HasTag(ts, TAttach) && HasTag(ts, TAllocate) {
      Pass1Conflicting(ts, s);
    } else {
      Pass1Clean(ts, s);
    }
  }

  /**
   * The conflict is detected at the second of the two options: the tokens
   * after it are never scanned.
   */
  lemma Pass1ConflictAt(ts: seq<Token>, k: nat, s: Scan1)
    requires AllWellFormed(ts) && Fresh1(s) && k < |ts|
    requires !HasTag(ts[..k], TVersion)
    requires !(HasTag(ts[..k], TAttach) && HasTag(ts[..k], TAllocate))
    requires (ts[k].desc.tag == TAttach && HasTag(ts[..k], TAllocate))
          || (ts[k].desc.tag == TAllocate && HasTag(ts[..k], TAttach))
    ensures Pass1(ts, s).exit == Some(1)
    ensures Pass1(ts, s) == Pass1(ts[..k + 1], s)
  {
    assert AllWellFormed(ts[..k]) by {
      forall i | 0 <= i < k ensures WellFormed(ts[..k][i]) { assert ts[..k][i] == ts[i]; }
    }
    Pass1Clean(ts[..k], s);
    var p := Pass1(ts[..k], s);
    assert WellFormed(ts[k]);
    Step1Mode(p, ts[k]);
    Pass1Snoc(ts, k, s);
    assert Pass1([ts[k]], p) == Pass1([], Step1(p, ts[k]));
    Pass1StopsAt(ts, k, s);
  }

  /**
   * `--version` reached before any conflict exits with 0, and nothing after
   * it is scanned.
   */
  lemma Pass1VersionAt(ts: seq<Token>, k: nat, s: Scan1)
    requires AllWellFormed(ts) && Fresh1(s) && k < |ts|
    requires ts[k].desc.tag == TVersion && !HasTag(ts[..k], TVersion)
    requires !(HasTag(ts[..k], TAttach) && HasTag(ts[..k], TAllocate))
    ensures Pass1(ts, s).exit == Some(0)
    ensures Pass1(ts, s) == Pass1(ts[..k + 1], s)
  {
    assert AllWellFormed(ts[..k]) by {
      forall i | 0 <= i < k ensures WellFormed(ts[..k][i]) { assert ts[..k][i] == ts[i]; }
    }
    Pass1Clean(ts[..k], s);
    var p := Pass1(ts[..k], s);
    Pass1Snoc(ts, k, s);
    assert Pass1([ts[k]], p) == Pass1([], Step1(p, ts[k]));
    Pass1StopsAt(ts, k, s);
  }

  /**
   * Where the second pass is: the record, the `_verbose` and `_debug`
   * counters, whether -n, -N and -c were given, and an exit status once one
   * is due.
   */
  datatype Scan2 = Scan2(opt: Opt, verbose: int, debug: int,
                         procsSet: bool, nodesSet: bool, cpusSet: bool, exit: Option<int>)

  /**
   * One turn of the second loop: count -v and -d, classify -o, -i and -e,
   * parse -m (an unknown distribution exits with 1 after it was stored), note
   * -n, -c and -N, parse --mem and --tmp (a negative size exits with 1 after
   * it was stored) and take -D as the working directory.
   */
  function Step2(s: Scan2, t: Token): Scan2
    requires TextPresent(t)
  {
    Switch2(s, PoptStore(s.opt, t), t)
  }

  /**
   * The switch of the second loop, on the record `o` that popt's store left.
   * It is written field by field: each field the switch writes is written by
   * one option only, and every other field keeps what popt left. `io`, `dt`
   * and `m` are what `verify_iotype`, `verify_dist_type` and `_to_bytes`
   * make of the text of -o/-i/-e, -m and --mem/--tmp.
   */
  function Switch2(s: Scan2, o: Opt, t: Token): Scan2
    requires TextPresent(t)
  {
    var tag := t.desc.tag;
    var a := ArgText(t.arg);
    var io := if tag == TOutput || tag == TInput || tag == TError then VerifyIoType(a) else IoSpec(IoNormal, "");
    var dt := if tag == TDistrib then VerifyDistType(a) else o.distribution;
    var m := if tag == TRealmem || tag == TTmpdisk then ToBytes(a) else 0;
    Scan2(o.(output := if tag == TOutput then io.io else o.output,
             ofname := if tag == TOutput then Some(io.name) else o.ofname,
             input := if tag == TInput then io.io else o.input,
             ifname := if tag == TInput then Some(io.name) else o.ifname,
             error := if tag == TError then io.io else o.error,
             efname := if tag == TError then Some(io.name) else o.efname,
             distribution := dt,
             realmem := if tag == TRealmem then m else o.realmem,
             tmpdisk := if tag == TTmpdisk then m else o.tmpdisk,
             cwd := if tag == TCddir then a else o.cwd),
          if tag == TVerbose then s.verbose + 1 else s.verbose,
          if tag == TDebug then s.debug + 1 else s.debug,
          s.procsSet || tag == TNprocs, s.nodesSet || tag == TNodes, s.cpusSet || tag == TCpus,
          if tag == TDistrib then (if dt == DistUnknown then Some(1) else None)
          else if tag == TRealmem || tag == TTmpdisk then (if m < 0 then Some(1) else None)
          else s.exit)
  }

  /** The options the second loop leaves to popt alone. */
  predicate StoredOnly2(tag: Tag) {
    tag in {Silent, TPartition, TAllocate, TAttach, TVersion,
            TMincpus, TContig, TNodelist, TConstraint, TNoAlloc}
  }

  lemma Step2StoredOnly(s: Scan2, t: Token)
    requires TextPresent(t) && StoredOnly2(t.desc.tag)
    ensures Step2(s, t) == s.(opt := PoptStore(s.opt, t))
  {
  }

  lemma Step2Counting(s: Scan2, t: Token)
    requires TextPresent(t) && t.desc.tag in {TVerbose, TDebug, TNprocs, TCpus, TNodes}
    ensures Step2(s, t) == s.(opt := PoptStore(s.opt, t),
                              verbose := if t.desc.tag == TVerbose then s.verbose + 1 else s.verbose,
                              debug := if t.desc.tag == TDebug then s.debug + 1 else s.debug,
                              procsSet := s.procsSet || t.desc.tag == TNprocs,
                              nodesSet := s.nodesSet || t.desc.tag == TNodes,
                              cpusSet := s.cpusSet || t.desc.tag == TCpus)
  {
  }

  lemma Step2Stream(s: Scan2, t: Token)
    requires TextPresent(t) && t.desc.tag in {TOutput, TInput, TError}
    ensures var o := PoptStore(s.opt, t);
            var io := VerifyIoType(ArgText(t.arg));
      Step2(s, t) == s.(opt := match t.desc.tag {
                                 case TOutput => o.(ofname := Some(io.name), output := io.io)
                                 case TInput => o.(ifname := Some(io.name), input := io.io)
                                 case _ => o.(efname := Some(io.name), error := io.io) })
  {
  }

  lemma Step2Distrib(s: Scan2, t: Token)
    requires TextPresent(t) && t.desc.tag == TDistrib
    ensures var dt := VerifyDistType(ArgText(t.arg));
      Step2(s, t) == s.(opt := PoptStore(s.opt, t).(distribution := dt),
                        exit := if dt == DistUnknown then Some(1) else None)
  {
  }

  lemma Step2Size(s: Scan2, t: Token)
    requires TextPresent(t) && t.desc.tag in {TRealmem, TTmpdisk}
    ensures var o := PoptStore(s.opt, t);
            var m := ToBytes(ArgText(t.arg));
      Step2(s, t) == s.(opt := if t.desc.tag == TRealmem then o.(realmem := m) else o.(tmpdisk := m),
                        exit := if m < 0 then Some(1) else None)
  {
  }

  lemma Step2Cddir(s: Scan2, t: Token)
    requires TextPresent(t) && t.desc.tag == TCddir
    ensures Step2(s, t) == s.(opt := PoptStore(s.opt, t).(cwd := ArgText(t.arg)))
  {
  }

  /** The second loop over the tokens, up to the end or the first exit. */
  function Pass2(ts: seq<Token>, s: Scan2): Scan2
    requires AllWellFormed(ts)
    decreases |ts|
  {
    if ts == [] || s.exit.Some? then s
    else
      assert WellFormed(ts[0]);
      assert AllWellFormed(ts[1..]) by {
        forall i | 0 <= i < |ts[1..]| ensures WellFormed(ts[1..][i]) { assert ts[1..][i] == ts[i + 1]; }
      }
      Pass2(ts[1..], Step2(s, ts[0]))
  }

  /** The pass from token `i` on is one step, then the pass from `i + 1` on. */
  lemma Pass2At(ts: seq<Token>, i: nat, s: Scan2)
    requires AllWellFormed(ts) && i < |ts| && s.exit.None?
    ensures WellFormed(ts[i])
    ensures Pass2(ts[i..], s) == Pass2(ts[i + 1..], Step2(s, ts[i]))
  {
    assert ts[i..][0] == ts[i] && ts[i..][1..] == ts[i + 1..];
    AllWellFormedTail(ts[i..]);
  }

  /** The options the second pass rejects: an unknown distribution, a negative size. */
  predicate Rejected(t: Token) {
    var a := ArgText(t.arg);
    || (t.desc.tag == TDistrib && VerifyDistType(a) == DistUnknown)
    || (t.desc.tag == TRealmem && |a| > 0 && ToBytes(a) < 0)
    || (t.desc.tag == TTmpdisk && |a| > 0 && ToBytes(a) < 0)
  }

  predicate AnyRejected(ts: seq<Token>) {
    exists i :: 0 <= i < |ts| && Rejected(ts[i])
  }

  /** The number of tokens of `ts` carrying `tag`. */
  function Count(ts: seq<Token>, tag: Tag): nat {
    if ts == [] then 0 else (if ts[0].desc.tag == tag then 1 else 0) + Count(ts[1..], tag)
  }

  lemma AllWellFormedTail(ts: seq<Token>)
    requires AllWellFormed(ts) && ts != []
    ensures WellFormed(ts[0]) && AllWellFormed(ts[1..])
  {
    forall i | 0 <= i < |ts[1..]| ensures WellFormed(ts[1..][i]) { assert ts[1..][i] == ts[i + 1]; }
  }

  lemma AnyRejectedCons(ts: seq<Token>)
    requires ts != []
    ensures AnyRejected(ts) <==> Rejected(ts[0]) || AnyRejected(ts[1..])
  {
    if AnyRejected(ts) && !Rejected(ts[0]) {
      var i :| 0 <= i < |ts| && Rejected(ts[i]);
      assert ts[1..][i - 1] == ts[i];
    }
    if AnyRejected(ts[1..]) {
      var i :| 0 <= i < |ts| - 1 && Rejected(ts[1..][i]);
      assert ts[i + 1] == ts[1..][i];
    }
  }

  /** A step ends the pass exactly when it rejects its option, and then with status 1. */
  lemma Step2Exit(s: Scan2, t: Token)
    requires TextPresent(t) && s.exit.None?
    ensures Step2(s, t).exit == if Rejected(t) then Some(1) else None
  {
  }

  /**
   * The second pass exits, always with status 1, exactly when one of its
   * options is rejected.
   */
  lemma {:induction false} Pass2Exit(ts: seq<Token>, s: Scan2)
    requires AllWellFormed(ts) && s.exit.None?
    ensures Pass2(ts, s).exit == if AnyRejected(ts) then Some(1) else None
    decreases |ts|
  {
    if ts != [] {
      AllWellFormedTail(ts);
      AnyRejectedCons(ts);
      Step2Exit(s, ts[0]);
      if !Rejected(ts[0]) {
        Pass2Exit(ts[1..], Step2(s, ts[0]));
      }
    }
  }

  /** What one step does to the -v and -d counters. */
  lemma Step2Counters(s: Scan2, t: Token)
    requires TextPresent(t)
    ensures Step2(s, t).verbose == s.verbose + (if t.desc.tag == TVerbose then 1 else 0)
    ensures Step2(s, t).debug == s.debug + (if t.desc.tag == TDebug then 1 else 0)
  {
  }

  /** What one step does to the `*_set` flags. */
  lemma Step2Flags(s: Scan2, t: Token)
    requires TextPresent(t)
    ensures Step2(s, t).procsSet == (s.procsSet || t.desc.tag == TNprocs)
    ensures Step2(s, t).nodesSet == (s.nodesSet || t.desc.tag == TNodes)
    ensures Step2(s, t).cpusSet == (s.cpusSet || t.desc.tag == TCpus)
  {
  }

  /**
   * When nothing is rejected, `_verbose` and `_debug` grow by the number of
   * -v and -d options, and each `*_set` flag holds exactly when its option
   * occurred.
   */
  lemma {:induction false} Pass2Counts(ts: seq<Token>, s: Scan2)
    requires AllWellFormed(ts) && s.exit.None? && !AnyRejected(ts)
    ensures Pass2(ts, s).verbose == s.verbose + Count(ts, TVerbose)
    ensures Pass2(ts, s).debug == s.debug + Count(ts, TDebug)
    ensures Pass2(ts, s).procsSet == (s.procsSet || HasTag(ts, TNprocs))
    ensures Pass2(ts, s).nodesSet == (s.nodesSet || HasTag(ts, TNodes))
    ensures Pass2(ts, s).cpusSet == (s.cpusSet || HasTag(ts, TCpus))
    decreases |ts|
  {
    if ts != [] {
      AllWellFormedTail(ts);
      AnyRejectedCons(ts);
      Step2Exit(s, ts[0]);
      Step2Counters(s, ts[0]);
      Step2Flags(s, ts[0]);
      HasTagCons(ts, TNprocs);
      HasTagCons(ts, TNodes);
      HasTagCons(ts, TCpus);
      Pass2Counts(ts[1..], Step2(s, ts[0]));
    }
  }
}
