/** `save_snapshot` (`src/cache.rs`) as a protocol: any number of writers fill temporary files and rename
    them over one target, and any of them may crash or fail at any point, even inside a write. */
module SaveProtocol {
  import opened Wrappers
  import opened Ledger
  import opened Seqs

  // ---- temporary names ----

  datatype Path = Path(parent: string, name: string)

  function Digit(n: nat): char
    requires n < 10
  {
    '0' + n as char
  }

  function Decimal(n: nat): (s: string)
    ensures s != [] && '.' !in s
  {
    if n < 10 then [Digit(n)] else Decimal(n / 10) + [Digit(n % 10)]
  }

  /** `tmp_sibling`: `.{name}.tmp.{pid}.{nanos}` beside the target. */
  function TmpSibling(target: Path, pid: nat, nanos: nat): Path {
    Path(target.parent, "." + target.name + ".tmp." + Decimal(pid) + "." + Decimal(nanos))
  }

  lemma {:induction false} DecimalIsInjective(a: nat, b: nat)
    requires Decimal(a) == Decimal(b)
    ensures a == b
  {
    LastDigit(a);
    LastDigit(b);
    if a >= 10 && b >= 10 {
      DecimalIsInjective(a / 10, b / 10);
    }
  }

  lemma LastDigit(n: nat)
    ensures Last(Decimal(n)) == Digit(n % 10) && (|Decimal(n)| > 1 <==> n >= 10)
    ensures n >= 10 ==> Init(Decimal(n)) == Decimal(n / 10)
  {
    if n >= 10 {
      Pushed(Decimal(n / 10), Digit(n % 10));
    }
  }

  function ReadDecimal(s: string): int {
    if s == [] then 0 else 10 * ReadDecimal(Init(s)) + (Last(s) as int - '0' as int)
  }

  /** The digits are those of the number in base ten. */
  lemma {:induction false} DecimalIsDecimal(n: nat)
    ensures ReadDecimal(Decimal(n)) == n
  {
    LastDigit(n);
    if n < 10 {
      assert Init(Decimal(n)) == [];
    } else {
      DecimalIsDecimal(n / 10);
    }
  }

  /** Two writers of one target have one temporary file only if pid and nanosecond both coincide; and
      never is the temporary file the target itself. */
  lemma TmpNamesAreDistinct(target: Path, p: nat, n: nat, q: nat, m: nat)
    ensures TmpSibling(target, p, n) == TmpSibling(target, q, m) <==> p == q && n == m
    ensures TmpSibling(target, p, n) != target
    ensures TmpSibling(target, p, n).parent == target.parent
    ensures "." + target.name + ".tmp." <= TmpSibling(target, p, n).name
  {
    var prefix := "." + target.name + ".tmp.";
    var a, b := Decimal(p) + "." + Decimal(n), Decimal(q) + "." + Decimal(m);
    assert TmpSibling(target, p, n).name == prefix + a && TmpSibling(target, q, m).name == prefix + b;
    assert |prefix + a| > |target.name|;
    if prefix + a == prefix + b {
      assert a == (prefix + a)[|prefix|..] == b;
      SplitAtFirst(Decimal(p), '.', Decimal(n), Decimal(q), Decimal(m));
      DecimalIsInjective(p, q);
      DecimalIsInjective(n, m);
    }
  }

  // ---- the protocol ----

  type Files = map<Path, seq<Byte>>

  datatype Pc =
    | Fresh
    | Writing(written: nat)   // the file exists with this much in it
    | Full                    // everything written
    | CleaningUp              // the rename failed
    | Succeeded
    | GaveUp                  // returned an error
    | Crashed

  /** What a writer wants in the target, and the temporary file it goes through. */
  datatype Writer = Writer(tmp: Path, content: seq<Byte>)

  datatype Disk = Disk(files: Files, pcs: seq<Pc>, renamed: seq<nat>)

  datatype Step =
    | Create(i: nat)
    | Write(i: nat, upTo: nat)       // some more bytes reach the file
    | Close(i: nat)
    | FailWrite(i: nat)
    | Rename(i: nat)
    | FailRename(i: nat)
    | Remove(i: nat, removed: bool)  // best-effort cleanup
    | Crash(i: nat)

  predicate Enabled(writers: seq<Writer>, d: Disk, step: Step)
    requires |d.pcs| == |writers|
  {
    step.i < |writers| &&
    var pc := d.pcs[step.i];
    match step
    case Create(_) => pc.Fresh?
    case Write(i, upTo) => pc.Writing? && pc.written <= upTo <= |writers[i].content|
    case Close(i) => pc.Writing? && pc.written == |writers[i].content|
    case FailWrite(_) => pc.Fresh? || pc.Writing?
    case Rename(_) => pc.Full?
    case FailRename(_) => pc.Full?
    case Remove(_, _) => pc.CleaningUp?
    case Crash(_) => !pc.Succeeded? && !pc.GaveUp? && !pc.Crashed?
  }

  function Next(target: Path, writers: seq<Writer>, d: Disk, step: Step): (r: Disk)
    requires |d.pcs| == |writers| && Enabled(writers, d, step)
    ensures |r.pcs| == |writers|
  {
    var i := step.i;
    var tmp := writers[i].tmp;
    match step
    case Create(_) => d.(files := d.files[tmp := []], pcs := d.pcs[i := Writing(0)])
    case Write(_, upTo) => d.(files := d.files[tmp := writers[i].content[..upTo]], pcs := d.pcs[i := Writing(upTo)])
    case Close(_) => d.(pcs := d.pcs[i := Full])
    case FailWrite(_) => d.(pcs := d.pcs[i := GaveUp])
    case Rename(_) =>
      if tmp in d.files then
        Disk((d.files - {tmp})[target := d.files[tmp]], d.pcs[i := Succeeded], d.renamed + [i])
      else d.(pcs := d.pcs[i := CleaningUp])
    case FailRename(_) => d.(pcs := d.pcs[i := CleaningUp])
    case Remove(_, removed) =>
      d.(files := if removed then d.files - {tmp} else d.files, pcs := d.pcs[i := GaveUp])
    case Crash(_) => d.(pcs := d.pcs[i := Crashed])
  }

  function Run(target: Path, writers: seq<Writer>, files: Files, steps: seq<Step>): (d: Disk)
    ensures |d.pcs| == |writers|
  {
    if steps == [] then Disk(files, seq(|writers|, _ => Fresh), [])
    else
      var before := Run(target, writers, files, Init(steps));
      if Enabled(writers, before, Last(steps)) then Next(target, writers, before, Last(steps)) else before
  }

  predicate DistinctNames(target: Path, writers: seq<Writer>) {
    && (forall i :: 0 <= i < |writers| ==> writers[i].tmp != target)
    && (forall i, j :: 0 <= i < j < |writers| ==> writers[i].tmp != writers[j].tmp)
  }

  function At(files: Files, path: Path): Option<seq<Byte>> {
    if path in files then Some(files[path]) else None
  }

  predicate TmpIsRight(d: Disk, w: Writer, pc: Pc) {
    match pc
    case Writing(n) => n <= |w.content| && At(d.files, w.tmp) == Some(w.content[..n])
    case Full => At(d.files, w.tmp) == Some(w.content)
    case Succeeded => At(d.files, w.tmp) == None
    case _ => true
  }

  /** What the target holds: the last renamed writer's snapshot, or what was there before. */
  function Expected(original: Option<seq<Byte>>, writers: seq<Writer>, renamed: seq<nat>): Option<seq<Byte>> {
    if renamed == [] || Last(renamed) >= |writers| then original else Some(writers[Last(renamed)].content)
  }

  ghost predicate Safe(target: Path, writers: seq<Writer>, files: Files, d: Disk)
    requires |d.pcs| == |writers|
  {
    && At(d.files, target) == Expected(At(files, target), writers, d.renamed)
    && (forall i :: 0 <= i < |writers| ==> TmpIsRight(d, writers[i], d.pcs[i]))
    && (forall j :: 0 <= j < |d.renamed| ==> d.renamed[j] < |writers|)
    && (forall i :: 0 <= i < |writers| ==> (d.pcs[i].Succeeded? <==> i in d.renamed))
    && (forall p :: p != target && (forall i :: 0 <= i < |writers| ==> writers[i].tmp != p) ==>
          At(d.files, p) == At(files, p))
  }

  /** A step reaches the writer's own temporary file, and the target only by a rename. */
  lemma StepTouches(target: Path, writers: seq<Writer>, d: Disk, step: Step, p: Path)
    requires |d.pcs| == |writers| && Enabled(writers, d, step) && p != writers[step.i].tmp
    requires p == target ==> !step.Rename?
    ensures At(Next(target, writers, d, step).files, p) == At(d.files, p)
  {
  }

  /** The writer's own file after its step. */
  lemma OwnFile(target: Path, writers: seq<Writer>, d: Disk, step: Step)
    requires |d.pcs| == |writers| && DistinctNames(target, writers) && Enabled(writers, d, step)
    requires TmpIsRight(d, writers[step.i], d.pcs[step.i])
    ensures var d' := Next(target, writers, d, step);
      && TmpIsRight(d', writers[step.i], d'.pcs[step.i])
      && (step.Rename? ==> d'.renamed == d.renamed + [step.i]
                           && At(d'.files, target) == Some(writers[step.i].content))
      && (!step.Rename? ==> d'.renamed == d.renamed)
      && (d'.pcs[step.i].Succeeded? <==> step.Rename?)
      && !d.pcs[step.i].Succeeded?
  {
    var content := writers[step.i].content;
    assert content[..|content|] == content && content[..0] == [];
  }

  lemma StepIsSafe(target: Path, writers: seq<Writer>, files: Files, d: Disk, step: Step)
    requires |d.pcs| == |writers| && DistinctNames(target, writers)
    requires Safe(target, writers, files, d) && Enabled(writers, d, step)
    ensures Safe(target, writers, files, Next(target, writers, d, step))
  {
    var d' := Next(target, writers, d, step);
    var i := step.i;
    OwnFile(target, writers, d, step);
    forall j | 0 <= j < |writers| ensures TmpIsRight(d', writers[j], d'.pcs[j]) {
      if j != i {
        StepTouches(target, writers, d, step, writers[j].tmp);
      }
    }
    if !step.Rename? {
      StepTouches(target, writers, d, step, target);
    }
    forall p | p != target && (forall j :: 0 <= j < |writers| ==> writers[j].tmp != p)
      ensures At(d'.files, p) == At(files, p)
    {
      StepTouches(target, writers, d, step, p);
    }
    forall j | 0 <= j < |writers| ensures d'.pcs[j].Succeeded? <==> j in d'.renamed {
      assert j != i ==> d'.pcs[j] == d.pcs[j];
    }
  }

  lemma {:induction false} RunIsSafe(target: Path, writers: seq<Writer>, files: Files, steps: seq<Step>)
    requires DistinctNames(target, writers)
    ensures Safe(target, writers, files, Run(target, writers, files, steps))
  {
    if steps == [] {
    } else {
      RunIsSafe(target, writers, files, Init(steps));
      var before := Run(target, writers, files, Init(steps));
      if Enabled(writers, before, Last(steps)) {
        StepIsSafe(target, writers, files, before, Last(steps));
      }
    }
  }

  /** At every moment, crashes included, the target holds its original content if nobody has succeeded,
      and otherwise the whole snapshot of the writer that succeeded last; no writer that succeeded leaves
      its temporary file; and no other file is touched. */
  lemma TargetIsAlwaysWhole(target: Path, writers: seq<Writer>, files: Files, steps: seq<Step>, other: Path)
    requires DistinctNames(target, writers)
    requires other != target && forall i :: 0 <= i < |writers| ==> writers[i].tmp != other
    ensures var d := Run(target, writers, files, steps);
      && (if d.renamed == [] then At(d.files, target) == At(files, target)
          else Last(d.renamed) < |writers| && At(d.files, target) == Some(writers[Last(d.renamed)].content))
      && (forall i :: 0 <= i < |writers| ==> (d.pcs[i].Succeeded? <==> i in d.renamed))
      && (forall i :: 0 <= i < |writers| && d.pcs[i].Succeeded? ==> writers[i].tmp !in d.files)
      && At(d.files, other) == At(files, other)
  {
    RunIsSafe(target, writers, files, steps);
    var d := Run(target, writers, files, steps);
    forall i | 0 <= i < |writers| && d.pcs[i].Succeeded? ensures writers[i].tmp !in d.files {
      assert TmpIsRight(d, writers[i], d.pcs[i]);
    }
  }

  /** Writers named by `tmp_sibling` at distinct (pid, nanosecond) pairs meet the condition above. */
  lemma SiblingsAreDistinct(target: Path, stamps: seq<(nat, nat)>, writers: seq<Writer>)
    requires |writers| == |stamps| && Distinct(stamps)
    requires forall i :: 0 <= i < |writers| ==> writers[i].tmp == TmpSibling(target, stamps[i].0, stamps[i].1)
    ensures DistinctNames(target, writers)
  {
    forall i | 0 <= i < |writers| ensures writers[i].tmp != target {
      TmpNamesAreDistinct(target, stamps[i].0, stamps[i].1, 0, 0);
    }
    forall i, j | 0 <= i < j < |writers| ensures writers[i].tmp != writers[j].tmp {
      TmpNamesAreDistinct(target, stamps[i].0, stamps[i].1, stamps[j].0, stamps[j].1);
    }
  }

  lemma OneMoreStep(target: Path, writers: seq<Writer>, files: Files, steps: seq<Step>, step: Step)
    ensures var before := Run(target, writers, files, steps);
      Run(target, writers, files, steps + [step])
      == if Enabled(writers, before, step) then Next(target, writers, before, step) else before
  {
    Pushed(steps, step);
  }

  /** A crash inside a write leaves a torn temporary file beside the target; that is all it leaves. */
  lemma TornWriteStaysAside(target: Path, w: Writer, files: Files, upTo: nat)
    requires w.tmp != target && upTo <= |w.content|
    ensures var d := Run(target, [w], files, [Create(0), Write(0, upTo), Crash(0)]);
      d.pcs == [Crashed] && At(d.files, w.tmp) == Some(w.content[..upTo]) && At(d.files, target) == At(files, target)
  {
    var one, two := [Create(0)], [Create(0), Write(0, upTo)];
    assert one == [] + [Create(0)] && two == one + [Write(0, upTo)];
    assert [Create(0), Write(0, upTo), Crash(0)] == two + [Crash(0)];
    OneMoreStep(target, [w], files, [], Create(0));
    OneMoreStep(target, [w], files, one, Write(0, upTo));
    OneMoreStep(target, [w], files, two, Crash(0));
  }
}
