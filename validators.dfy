/**
 * The field validators of srun's option processing (opt.c): the I/O
 * specification classifier `verify_iotype`, the distribution parser
 * `verify_dist_type`, the size parser `to_bytes`, and the environment
 * assignments `set_allocate_mode_env_vars` makes for an allocate-mode shell.
 */
module Validators {
  import opened CString
  import opened Types

  /** What `verify_iotype` returns, with the name it leaves behind. */
  datatype IoSpec = IoSpec(io: IoType, name: string)

  /**
   * `verify_iotype`: a trailing `%` selects one file per task and is cut off
   * the caller's copy of the name. Otherwise the name is compared with
   * "normal" and "none" as the code does it: a NON-zero `strncasecmp` result
   * selects the mode, so the comparisons select the opposite of what the
   * function's comment announces.
   */
  function VerifyIoType(name: string): IoSpec
    requires |name| > 0
  {
    var end := |name| - 1;
    if name[end] == '%' then IoSpec(IoPerTask, name[..end])
    else if !StrNCaseEq(name, "normal", 6) then IoSpec(IoAll, name)
    else if !StrNCaseEq(name, "none", 4) then IoSpec(IoNone, name)
    else IoSpec(IoNormal, name)
  }

  /** A trailing `%` gives one file per task, with exactly that `%` removed. */
  lemma IoPerTaskStripsPercent(name: string)
    requires |name| > 0
    ensures VerifyIoType(name).io == IoPerTask <==> name[|name| - 1] == '%'
    ensures name[|name| - 1] == '%' ==> VerifyIoType(name).name + "%" == name
  {
    if name[|name| - 1] != '%' {
      StrNCaseEqStartsWith(name, "normal");
    }
  }

  /**
   * Without a trailing `%` the name is kept as it is; it selects a single
   * file unless it begins with "normal" in any case, and then it selects
   * IO_NONE.
   */
  lemma IoWithoutPercent(name: string)
    requires |name| > 0 && name[|name| - 1] != '%'
    ensures VerifyIoType(name).name == name
    ensures VerifyIoType(name).io == IoAll <==> !IsCasePrefix("normal", name)
    ensures VerifyIoType(name).io == IoNone <==> IsCasePrefix("normal", name)
  {
    StrNCaseEqStartsWith(name, "normal");
    StrNCaseEqStartsWith(name, "none");
    if IsCasePrefix("normal", name) {
      assert Lower(name[2]) == Lower("normal"[2]);
    }
  }

  /** IO_NORMAL is never the answer: a name that begins with "normal" cannot begin with "none". */
  lemma IoNormalUnreachable(name: string)
    requires |name| > 0
    ensures VerifyIoType(name).io != IoNormal
  {
    if name[|name| - 1] != '%' {
      IoWithoutPercent(name);
    }
  }

  lemma IoTypeExamplesFiles()
    ensures VerifyIoType("out.txt") == IoSpec(IoAll, "out.txt")
    ensures VerifyIoType("out.txt%") == IoSpec(IoPerTask, "out.txt")
  {
    IoWithoutPercent("out.txt");
    assert !IsCasePrefix("normal", "out.txt") by { assert Lower("out.txt"[0]) != Lower("normal"[0]); }
    IoPerTaskStripsPercent("out.txt%");
  }

  /** The two keywords select the opposite of their names. */
  lemma IoTypeExamplesKeywords()
    ensures VerifyIoType("none") == IoSpec(IoAll, "none")
    ensures VerifyIoType("normal") == IoSpec(IoNone, "normal")
  {
    IoWithoutPercent("none");
    assert !IsCasePrefix("normal", "none");
    IoWithoutPercent("normal");
  }

  lemma IoTypeExamplesCase()
    ensures VerifyIoType("NORMAL.log") == IoSpec(IoNone, "NORMAL.log")
  {
    IoWithoutPercent("NORMAL.log");
    assert IsCasePrefix("normal", "NORMAL.log") by {
      assert forall i :: 0 <= i < 6 ==> Lower("normal"[i]) == Lower("NORMAL.log"[i]);
    }
  }

  /**
   * `verify_dist_type`: the argument must abbreviate, in any case,
   * "cyclic" (tried first) or "block".
   */
  function VerifyDistType(arg: string): Distribution
  {
    if StrNCaseEq(arg, "cyclic", |arg|) then DistCyclic
    else if StrNCaseEq(arg, "block", |arg|) then DistBlock
    else DistUnknown
  }

  /** The three outcomes of `verify_dist_type`, each with both directions. */
  lemma DistTypeMeaning(arg: string)
    ensures VerifyDistType(arg) == DistCyclic <==> IsCasePrefix(arg, "cyclic")
    ensures VerifyDistType(arg) == DistBlock <==>
              !IsCasePrefix(arg, "cyclic") && IsCasePrefix(arg, "block")
    ensures VerifyDistType(arg) == DistUnknown <==>
              !IsCasePrefix(arg, "cyclic") && !IsCasePrefix(arg, "block")
  {
    StrNCaseEqPrefixOf(arg, "cyclic");
    StrNCaseEqPrefixOf(arg, "block");
  }

  lemma DistTypeExamples()
    ensures VerifyDistType("CYCLIC") == DistCyclic
    ensures VerifyDistType("c") == DistCyclic
    ensures VerifyDistType("") == DistCyclic
    ensures VerifyDistType("Block") == DistBlock
    ensures VerifyDistType("b") == DistBlock
    ensures VerifyDistType("blk") == DistUnknown
    ensures VerifyDistType("cyclical") == DistUnknown
  {
    DistTypeMeaning("CYCLIC");
    assert IsCasePrefix("CYCLIC", "cyclic") by {
      assert forall i :: 0 <= i < 6 ==> Lower("CYCLIC"[i]) == Lower("cyclic"[i]);
    }
    DistTypeMeaning("c");
    DistTypeMeaning("");
    DistTypeMeaning("Block");
    assert !IsCasePrefix("Block", "cyclic") by { assert Lower("Block"[0]) != Lower("cyclic"[0]); }
    assert IsCasePrefix("Block", "block") by {
      assert forall i :: 0 <= i < 5 ==> Lower("Block"[i]) == Lower("block"[i]);
    }
    DistTypeMeaning("b");
    assert !IsCasePrefix("b", "cyclic") by { assert Lower("b"[0]) != Lower("cyclic"[0]); }
    DistTypeMeaning("blk");
    assert !IsCasePrefix("blk", "cyclic") by { assert Lower("blk"[0]) != Lower("cyclic"[0]); }
    assert !IsCasePrefix("blk", "block") by { assert Lower("blk"[2]) != Lower("block"[2]); }
    DistTypeMeaning("cyclical");
  }

  /**
   * `to_bytes`: a number, in MB, with an optional final `M` (times 1) or `G`
   * (times 1024). Any other final non-digit multiplies by -1, and text that
   * `strtol` leaves unconverted negates the result. Callers treat a
   * negative result as invalid.
   */
  function ToBytes(arg: string): int
    requires |arg| > 0
  {
    var end := |arg| - 1;
    if IsDigit(arg[end]) then
      var c := Strtol(arg);
      if c.end != |arg| then -c.value else c.value
    else
      var multiplier := if Upper(arg[end]) == 'G' then 1024 else if Upper(arg[end]) == 'M' then 1 else -1;
      var buf := arg[..end];
      var c := Strtol(buf);
      var result := multiplier * c.value;
      if c.end != |buf| then -result else result
  }

  /** The factor a final character stands for in `to_bytes`. */
  function SuffixFactor(c: char): int {
    if IsDigit(c) || Upper(c) == 'M' then 1 else if Upper(c) == 'G' then 1024 else -1
  }

  /** A plain number is that many MB. */
  lemma ToBytesNumber(d: string)
    requires 0 < |d| && AllDigits(d)
    ensures ToBytes(d) == DecimalValue(d)
  {
    StrtolDigits(d);
  }

  /**
   * A number followed by one non-digit: `M` or `m` keeps it, `G` or `g`
   * multiplies it by 1024, any other character negates it.
   */
  lemma ToBytesSuffix(d: string, c: char)
    requires 0 < |d| && AllDigits(d)
    requires !IsDigit(c)
    ensures ToBytes(d + [c]) == SuffixFactor(c) * DecimalValue(d)
  {
    StrtolDigits(d);
    assert (d + [c])[..|d|] == d;
  }

  /** `to_bytes` when `strtol` stops before the end of the text it was given. */
  lemma ToBytesStopsEarly(arg: string)
    requires 0 < |arg|
    requires var n := |arg| - 1; Strtol(if IsDigit(arg[n]) then arg else arg[..n]).end < n
    ensures ToBytes(arg) == -(SuffixFactor(arg[|arg| - 1]) *
                               Strtol(if IsDigit(arg[|arg| - 1]) then arg else arg[..|arg| - 1]).value)
  {
  }

  /**
   * Text after the number that `strtol` does not convert negates the
   * value the final character asked for.
   */
  lemma ToBytesTrailingJunk(d: string, junk: string)
    requires 0 < |d| && AllDigits(d)
    requires 2 <= |junk| && !IsDigit(junk[0])
    ensures ToBytes(d + junk) == -(SuffixFactor(junk[|junk| - 1]) * DecimalValue(d))
  {
    var arg := d + junk;
    var end := |arg| - 1;
    assert arg[end] == junk[|junk| - 1];
    if IsDigit(arg[end]) {
      StrtolDigitsThen(d, junk);
    } else {
      assert arg[..end] == d + junk[..|junk| - 1];
      StrtolDigitsThen(d, junk[..|junk| - 1]);
    }
    ToBytesStopsEarly(arg);
  }

  /**
   * The two negations cancel: "5X" is refused as -5, but in "5XX" the
   * unknown suffix negates and the unconverted "X" negates again, so the
   * size comes out as 5 MB and passes the check for a negative size.
   */
  lemma ToBytesDoubleNegation()
    ensures ToBytes("5X") == -5
    ensures ToBytes("5XX") == 5
  {
    DecimalExamples();
    ToBytesSuffix("5", 'X');
    assert "5" + ['X'] == "5X";
    ToBytesTrailingJunk("5", "XX");
    assert "5" + "XX" == "5XX";
  }

  /** Without any digit the result is 0, which callers accept: "abc" is 0 MB. */
  lemma ToBytesWithoutDigits(arg: string)
    requires 0 < |arg|
    requires forall i :: 0 <= i < |arg| ==> !IsDigit(arg[i])
    ensures ToBytes(arg) == 0
  {
    var buf := arg[..|arg| - 1];
    var c := Strtol(buf);
    assert c.end == 0;
  }

  lemma DecimalExamples()
    ensures DecimalValue("5") == 5 && DecimalValue("2") == 2
    ensures DecimalValue("100") == 100 && DecimalValue("512") == 512
  {
    assert DecimalValue("1") == 1;
    assert "10"[..1] == "1" && "100"[..2] == "10";
    assert DecimalValue("10") == 10;
    assert "51"[..1] == "5" && "512"[..2] == "51";
    assert DecimalValue("51") == 51;
  }

  lemma ToBytesExamplesSuffixes()
    ensures ToBytes("512M") == 512
    ensures ToBytes("2G") == 2048
  {
    DecimalExamples();
    ToBytesSuffix("512", 'M');
    assert "512" + ['M'] == "512M";
    ToBytesSuffix("2", 'G');
    assert "2" + ['G'] == "2G";
  }

  lemma ToBytesExamplesOthers()
    ensures ToBytes("100") == 100
    ensures ToBytes("5X") == -5
    ensures ToBytes("abc") == 0
  {
    DecimalExamples();
    ToBytesNumber("100");
    ToBytesSuffix("5", 'X');
    assert "5" + ['X'] == "5X";
    ToBytesWithoutDigits("abc");
  }

  /** One assignment `setenvf` makes; `value` is None where a NULL name is formatted. */
  datatype Export = Export(name: string, value: Option<string>)

  function WithPercent(f: Option<string>): Option<string> {
    if f.Some? then Some(f.value + "%") else None
  }

  /**
   * `set_allocate_mode_env_vars`: hand the I/O redirections to the
   * allocate-mode shell, re-appending `%` to a per-task name. The stderr
   * branch for per-task names tests `opt.output`, as the code does.
   */
  function AllocateModeEnv(o: Opt): seq<Export>
  {
    OutputExport(o) + ErrorExport(o) + InputExport(o)
  }

  function OutputExport(o: Opt): seq<Export> {
    if o.output == IoAll then [Export("SLURM_OUTPUT", o.ofname)]
    else if o.output == IoPerTask then [Export("SLURM_OUTPUT", WithPercent(o.ofname))]
    else []
  }

  function ErrorExport(o: Opt): seq<Export> {
    if o.error == IoAll then [Export("SLURM_ERROR", o.efname)]
    else if o.output == IoPerTask then [Export("SLURM_ERROR", WithPercent(o.efname))]
    else []
  }

  function InputExport(o: Opt): seq<Export> {
    if o.input == IoAll then [Export("SLURM_INPUT", o.ifname)]
    else if o.input == IoPerTask then [Export("SLURM_INPUT", WithPercent(o.ifname))]
    else []
  }

  /** The value the first assignment to `name` gives, if there is one. */
  function Exported(es: seq<Export>, name: string): Option<Option<string>>
  {
    if es == [] then None
    else if es[0].name == name then Some(es[0].value)
    else Exported(es[1..], name)
  }

  lemma {:induction false} ExportedAppend(a: seq<Export>, b: seq<Export>, name: string)
    ensures Exported(a + b, name) ==
              if Exported(a, name).Some? then Exported(a, name) else Exported(b, name)
  {
    if a != [] {
      assert (a + b)[1..] == a[1..] + b;
      ExportedAppend(a[1..], b, name);
    } else {
      assert a + b == b;
    }
  }

  /** Each of the three names is assigned at most once, and nothing else. */
  lemma AllocateModeEnvNames(o: Opt)
    ensures |AllocateModeEnv(o)| <= 3
    ensures forall i :: 0 <= i < |AllocateModeEnv(o)| ==>
              AllocateModeEnv(o)[i].name in {"SLURM_OUTPUT", "SLURM_ERROR", "SLURM_INPUT"}
    ensures forall i, j :: 0 <= i < j < |AllocateModeEnv(o)| ==>
              AllocateModeEnv(o)[i].name != AllocateModeEnv(o)[j].name
  {
  }

  /**
   * Round trip for stdout: whatever argument `verify_iotype` classified as a
   * file (single or per task) is exported again as exactly that argument.
   */
  lemma OutputExportRoundTrip(o: Opt, arg: string)
    requires |arg| > 0
    requires o.output == VerifyIoType(arg).io && o.ofname == Some(VerifyIoType(arg).name)
    ensures Exported(AllocateModeEnv(o), "SLURM_OUTPUT") ==
              if o.output == IoNone then None else Some(Some(arg))
  {
    IoPerTaskStripsPercent(arg);
    IoNormalUnreachable(arg);
    var es := AllocateModeEnv(o);
    if o.output == IoNone {
      forall i | 0 <= i < |es| ensures es[i].name != "SLURM_OUTPUT" { }
      ExportedAbsent(es, "SLURM_OUTPUT");
    }
  }

  /** The same round trip for stdin. */
  lemma InputExportRoundTrip(o: Opt, arg: string)
    requires |arg| > 0
    requires o.input == VerifyIoType(arg).io && o.ifname == Some(VerifyIoType(arg).name)
    ensures Exported(AllocateModeEnv(o), "SLURM_INPUT") ==
              if o.input == IoNone then None else Some(Some(arg))
  {
    IoPerTaskStripsPercent(arg);
    IoNormalUnreachable(arg);
    var front := OutputExport(o) + ErrorExport(o);
    ExportedAbsent(front, "SLURM_INPUT");
    ExportedAppend(front, InputExport(o), "SLURM_INPUT");
  }

  lemma {:induction false} ExportedAbsent(es: seq<Export>, name: string)
    requires forall i :: 0 <= i < |es| ==> es[i].name != name
    ensures Exported(es, name) == None
  {
    if es != [] { ExportedAbsent(es[1..], name); }
  }

  /**
   * stderr is exported by a test that looks at stdout: a single stderr file
   * is exported as given, but a per-task stderr name is exported only when
   * stdout is per task as well, and then even a stderr set to IO_NONE is
   * exported with a `%`.
   */
  lemma ErrorExportFollowsOutput(o: Opt)
    ensures o.error == IoAll ==> Exported(AllocateModeEnv(o), "SLURM_ERROR") == Some(o.efname)
    ensures o.error != IoAll && o.output != IoPerTask ==>
              Exported(AllocateModeEnv(o), "SLURM_ERROR") == None
    ensures o.error != IoAll && o.output == IoPerTask ==>
              Exported(AllocateModeEnv(o), "SLURM_ERROR") == Some(WithPercent(o.efname))
  {
    ExportedAbsent(OutputExport(o), "SLURM_ERROR");
    ExportedAbsent(InputExport(o), "SLURM_ERROR");
    ExportedAppend(OutputExport(o), ErrorExport(o), "SLURM_ERROR");
    ExportedAppend(OutputExport(o) + ErrorExport(o), InputExport(o), "SLURM_ERROR");
    if o.error != IoAll && o.output != IoPerTask {
      ExportedAbsent(AllocateModeEnv(o), "SLURM_ERROR");
    }
  }
}
