/**
 * The skin-analysis stage machine of the home screen: `upload`, then
 * `analyzing` while a progress bar passes fixed checkpoints, then `results`;
 * an exception anywhere in the sequence falls back to `upload`.
 */
module Analysis {

  datatype Step = Upload | Analyzing | Results

  /** The analysis payload; the score 7.2 out of 10 is kept in tenths. */
  datatype SkinAnalysis = SkinAnalysis(skinType: string, scoreTenths: int, concerns: seq<string>)

  /** The fixed result every analysis run produces; no pixel of the image is read. */
  function SimulatedResult(): (a: SkinAnalysis)
    ensures 0 <= a.scoreTenths <= 100
  {
    SkinAnalysis("Mista com tendência oleosa", 72,
      ["Poros dilatados", "Oleosidade na zona T", "Leve desidratação"])
  }

  /** The progress checkpoints, one per timed pause. */
  function Intervals(): (s: seq<int>)
    ensures |s| == 5 && s[|s| - 1] == 100
    ensures forall i :: 0 <= i < |s| ==> s[i] == 20 * (i + 1)
  {
    [20, 40, 60, 80, 100]
  }

  /**
   * Where the run stops: it completes; an exception is raised after
   * `checkpoints` progress updates (5 means after the loop, before the
   * result is stored); or the best-effort save of the result throws, after
   * the result is stored and only when a user is signed in.
   */
  datatype Fault = NoFault | ThrowAfter(checkpoints: nat) | SaveThrows

  predicate ValidFault(f: Fault)
  {
    f.ThrowAfter? ==> f.checkpoints <= |Intervals()|
  }

  /** The checkpoints a run reaches. */
  function Reached(f: Fault): (n: nat)
    requires ValidFault(f)
    ensures n <= |Intervals()|
    ensures !f.ThrowAfter? ==> n == |Intervals()|
  {
    if f.ThrowAfter? then f.checkpoints else |Intervals()|
  }

  /** The run stores the simulated result: it got past `setAnalysis`. */
  predicate Stores(f: Fault)
  {
    !f.ThrowAfter?
  }

  /** The run ends in `results`: no exception, or a save that is skipped because no user is signed in. */
  predicate Completes(f: Fault, saving: bool)
  {
    f.NoFault? || (f.SaveThrows? && !saving)
  }

  /** The values written to `progress`, in order: a reset to 0, then each checkpoint reached. */
  function ProgressWrites(f: Fault): (w: seq<int>)
    requires ValidFault(f)
    ensures |w| == Reached(f) + 1 && w[0] == 0
    ensures forall i :: 1 <= i < |w| ==> w[i] == 20 * i
  {
    [0] + Intervals()[..Reached(f)]
  }

  /** The values written to `step`, in order; `saving` says whether a user is signed in. */
  function StepWrites(f: Fault, saving: bool): (s: seq<Step>)
    ensures |s| == 2 && s[0] == Analyzing
    ensures s[1] == Results <==> Completes(f, saving)
    ensures s[1] == Upload <==> !Completes(f, saving)
  {
    [Analyzing, if Completes(f, saving) then Results else Upload]
  }

  /** Every run that ends in `results` has stored the result first. */
  lemma CompletesStores(f: Fault, saving: bool)
    ensures Completes(f, saving) ==> Stores(f)
    ensures Stores(f) && !Completes(f, saving) ==> f.SaveThrows? && saving
  {
  }

  predicate StrictlyIncreasing(s: seq<int>)
  {
    forall i, j :: 0 <= i < j < |s| ==> s[i] < s[j]
  }

  /**
   * Progress starts at 0, rises strictly, stays within 0..100, and ends at
   * 100 exactly when every checkpoint was reached; a run that stores the
   * result writes 0, 20, 40, 60, 80, 100.
   */
  lemma ProgressWritesShape(f: Fault)
    requires ValidFault(f)
    ensures var w := ProgressWrites(f);
      |w| == Reached(f) + 1 && w[0] == 0 && StrictlyIncreasing(w) &&
      (forall i :: 0 <= i < |w| ==> 0 <= w[i] <= 100) &&
      (w[|w| - 1] == 100 <==> Reached(f) == |Intervals()|)
    ensures Stores(f) ==> ProgressWrites(f) == [0, 20, 40, 60, 80, 100]
  {
  }
}
