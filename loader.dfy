/**
 * The artifact loader run at start-up (`load_model` in app.py): it probes an
 * ordered list of candidate files, sorts each existing file into the linear
 * (logistic regression) or the ensemble (random forest) slot by a test on its
 * lower-cased file name, and fails with "no model" when both slots end empty.
 *
 * The file system is an input: `Environment.files` maps every path that exists
 * to what deserialising it yields (`None` when `load` raises).
 */
module Loader {
  import opened Wrappers
  import opened Text

  /** A deserialised pipeline, known only by its identity. */
  datatype Model = Model(artifact: nat)

  /**
   * What the process sees of its environment: the hosting marker
   * `WEBSITE_SITE_NAME`, the preference `MODEL_TYPE` (both `None` when unset)
   * and the artifact files.
   */
  datatype Environment = Environment(
    siteName: Option<string>,
    modelType: Option<string>,
    files: map<string, Option<Model>>)

  /** `os.getenv("WEBSITE_SITE_NAME")` is truthy: set and not empty. */
  predicate OnAzure(env: Environment) {
    env.siteName.Some? && env.siteName.value != ""
  }

  const ModelsDir: string := "models"
  const AzureBase: string := "/home/site/wwwroot"

  /** The substrings the file-name test looks for. */
  const LinearTag: string := "logreg"
  const ForestTag: string := "randomforest"
  const ForestShortTag: string := "rf"

  /**
   * The four artifact file names, in the order they are probed:
   * "best_logreg_pipeline.joblib", "logreg_cv_best_pipeline.joblib",
   * "best_randomforest_pipeline.joblib" and "rf_cv_best_pipeline.joblib",
   * spelled around the tags they contain.
   */
  const FileNames: seq<string> := [
    "best_" + LinearTag + "_pipeline.joblib",
    LinearTag + "_cv_best_pipeline.joblib",
    "best_" + ForestTag + "_pipeline.joblib",
    ForestShortTag + "_cv_best_pipeline.joblib"
  ]

  /** `models/<file>` for each file name, in order. */
  const LocalPaths: seq<string> := [
    Join(ModelsDir, FileNames[0]),
    Join(ModelsDir, FileNames[1]),
    Join(ModelsDir, FileNames[2]),
    Join(ModelsDir, FileNames[3])
  ]

  /** `/home/site/wwwroot/models/<file>` for each file name, in order. */
  const AzurePaths: seq<string> := [
    Join(AzureBase, LocalPaths[0]),
    Join(AzureBase, LocalPaths[1]),
    Join(AzureBase, LocalPaths[2]),
    Join(AzureBase, LocalPaths[3])
  ]

  /** The candidate list: the local paths, then the Azure paths when hosted there. */
  function CandidatePaths(azure: bool): (paths: seq<string>)
    ensures |paths| == if azure then 8 else 4
    ensures paths[..4] == LocalPaths
    ensures azure ==> paths[4..] == AzurePaths
  {
    LocalPaths + if azure then AzurePaths else []
  }

  /** Which slot a file is sorted into. */
  datatype Category = Linear | Forest | Unrecognised

  /** The test on the lower-cased file name: "logreg" first, then "randomforest" or "rf". */
  function ClassifyName(name: string): Category {
    var n := Lower(name);
    if Contains(n, LinearTag) then Linear
    else if Contains(n, ForestTag) || Contains(n, ForestShortTag) then Forest
    else Unrecognised
  }

  function Classify(path: string): Category {
    ClassifyName(Name(path))
  }

  /** Only the file name is inspected: the directory a file sits in never changes its slot. */
  lemma ClassifyIgnoresDirectory(dir: string, name: string)
    requires Separator !in name
    ensures Classify(Join(dir, name)) == ClassifyName(name)
  {
    NameOfJoin(dir, name);
  }

  /** The test is case-insensitive: lower-casing a name first never changes its slot. */
  lemma ClassifyIgnoresCase(name: string)
    ensures ClassifyName(Lower(name)) == ClassifyName(name)
  {
    LowerUnchanged(Lower(name));
  }

  /** Text that needs no lower-casing. */
  predicate LowerCase(s: string) {
    forall c :: c in s ==> !IsUpper(c)
  }

  /** A lower-case name with "logreg" in it is linear, whatever else it holds. */
  lemma LinearName(pre: string, post: string)
    requires LowerCase(pre) && LowerCase(post)
    ensures ClassifyName(pre + LinearTag + post) == Linear
  {
    LowerUnchanged(pre + LinearTag + post);
    ContainsInfix(pre, LinearTag, post);
  }

  /** A lower-case name without "logreg" but with "randomforest" or "rf" in it is an ensemble. */
  lemma ForestName(pre: string, tag: string, post: string)
    requires tag == ForestTag || tag == ForestShortTag
    requires LowerCase(pre) && LowerCase(post)
    requires !Contains(pre + tag + post, LinearTag)
    ensures ClassifyName(pre + tag + post) == Forest
  {
    LowerUnchanged(pre + tag + post);
    ContainsInfix(pre, tag, post);
  }

  lemma LowerCaseParts()
    ensures LowerCase("best_") && LowerCase("_pipeline.joblib") && LowerCase("_cv_best_pipeline.joblib")
    ensures 'g' !in "best_" && 'g' !in "_pipeline.joblib" && 'g' !in "_cv_best_pipeline.joblib"
  {
  }

  /** The ensemble tags lack the 'g' of "logreg". */
  lemma TagLetters()
    ensures 'g' !in ForestTag && 'g' !in ForestShortTag && LinearTag[2] == 'g'
  {
  }

  /** The two "logreg" files are linear, the "randomforest" and "rf" files are ensembles. */
  lemma FileNameCategories()
    ensures ClassifyName(FileNames[0]) == Linear
    ensures ClassifyName(FileNames[1]) == Linear
    ensures ClassifyName(FileNames[2]) == Forest
    ensures ClassifyName(FileNames[3]) == Forest
  {
    LowerCaseParts();
    TagLetters();
    LinearName("best_", "_pipeline.joblib");
    assert FileNames[1] == [] + LinearTag + "_cv_best_pipeline.joblib";
    LinearName([], "_cv_best_pipeline.joblib");
    AbsentCharacter(FileNames[2], LinearTag, 2);
    ForestName("best_", ForestTag, "_pipeline.joblib");
    assert FileNames[3] == [] + ForestShortTag + "_cv_best_pipeline.joblib";
    AbsentCharacter(FileNames[3], LinearTag, 2);
    ForestName([], ForestShortTag, "_cv_best_pipeline.joblib");
  }

  /** A local path and its Azure twin have the file name of the same index. */
  lemma PathNames(j: nat)
    requires j < 4
    ensures Classify(LocalPaths[j]) == ClassifyName(FileNames[j])
    ensures Classify(AzurePaths[j]) == ClassifyName(FileNames[j])
  {
    var file := FileNames[j];
    assert Separator !in file;
    assert LocalPaths[j] == Join(ModelsDir, file);
    assert AzurePaths[j] == Join(AzureBase, Join(ModelsDir, file));
    NameOfJoin(ModelsDir, file);
    NameOfNestedJoin(AzureBase, ModelsDir, file);
  }

  /** Each of the eight candidate paths falls into the category its file name suggests. */
  lemma CandidateCategories(azure: bool, k: nat)
    requires k < |CandidatePaths(azure)|
    ensures Classify(CandidatePaths(azure)[k]) == if k % 4 < 2 then Linear else Forest
  {
    var paths := CandidatePaths(azure);
    var j := if k < 4 then k else k - 4;
    assert j == k % 4;
    PathNames(j);
    FileNameCategories();
    if k < 4 {
      assert paths[k] == paths[..4][j] == LocalPaths[j];
    } else {
      assert paths[k] == paths[4..][j] == AzurePaths[j];
    }
  }

  /** One probed candidate: its path, whether it exists, and what loading it yields. */
  datatype Candidate = Candidate(path: string, present: bool, outcome: Option<Model>)

  function Probe(paths: seq<string>, files: map<string, Option<Model>>): (cs: seq<Candidate>)
    ensures |cs| == |paths|
    ensures forall k :: 0 <= k < |paths| ==> cs[k].path == paths[k]
  {
    seq(|paths|, k requires 0 <= k < |paths| =>
      Candidate(paths[k], paths[k] in files, if paths[k] in files then files[paths[k]] else None))
  }

  /** The candidates `load_model` walks, in order. */
  function Candidates(env: Environment): seq<Candidate> {
    Probe(CandidatePaths(OnAzure(env)), env.files)
  }

  /**
   * The Azure paths are probed only when `WEBSITE_SITE_NAME` is set to a
   * non-empty value; unset or empty, the walk covers the four local paths.
   */
  lemma AzureMarker(env: Environment)
    ensures env.siteName.None? || env.siteName == Some("") ==> |Candidates(env)| == 4
    ensures env.siteName.Some? && env.siteName.value != "" ==>
      |Candidates(env)| == 8 && Candidates(env)[4].path == AzurePaths[0]
    ensures Candidates(env)[0].path == LocalPaths[0]
  {
  }

  /** The candidate exists, belongs to `cat` and deserialises without raising. */
  predicate LoadsInto(c: Candidate, cat: Category) {
    c.present && Classify(c.path) == cat && c.outcome.Some?
  }

  /** The slot for `cat` after walking `cs`, starting from `init`. */
  function Scan(cs: seq<Candidate>, cat: Category, init: Option<Model>): Option<Model>
    decreases |cs|
  {
    if cs == [] then init
    else if LoadsInto(cs[|cs| - 1], cat) then cs[|cs| - 1].outcome
    else Scan(cs[..|cs| - 1], cat, init)
  }

  /** Walking one candidate further either takes its model or leaves the slot as it was. */
  lemma ScanStep(cs: seq<Candidate>, i: nat, cat: Category, init: Option<Model>)
    requires i < |cs|
    ensures Scan(cs[..i + 1], cat, init) ==
      if LoadsInto(cs[i], cat) then cs[i].outcome else Scan(cs[..i], cat, init)
  {
    assert cs[..i + 1][..i] == cs[..i];
  }

  /** Walking `a + b` is walking `a` and then walking `b` from where `a` left the slot. */
  lemma {:induction false} ScanAppend(a: seq<Candidate>, b: seq<Candidate>, cat: Category, init: Option<Model>)
    ensures Scan(a + b, cat, init) == Scan(b, cat, Scan(a, cat, init))
    decreases |b|
  {
    if b == [] {
      assert a + b == a;
    } else {
      var ab := a + b;
      assert ab[|ab| - 1] == b[|b| - 1];
      assert ab[..|ab| - 1] == a + b[..|b| - 1];
      ScanAppend(a, b[..|b| - 1], cat, init);
    }
  }

  /** The last candidate that loads into `cat` decides the slot: later successes win over earlier ones. */
  lemma {:induction false} ScanLastWins(cs: seq<Candidate>, cat: Category, init: Option<Model>, k: nat)
    requires k < |cs| && LoadsInto(cs[k], cat)
    requires forall j :: k < j < |cs| ==> !LoadsInto(cs[j], cat)
    ensures Scan(cs, cat, init) == cs[k].outcome
    decreases |cs|
  {
    if k < |cs| - 1 {
      var init' := cs[..|cs| - 1];
      assert forall j :: k < j < |init'| ==> init'[j] == cs[j];
      ScanLastWins(init', cat, init, k);
    }
  }

  /** When no candidate loads into `cat`, the slot keeps its value. */
  lemma {:induction false} ScanKeepsSlot(cs: seq<Candidate>, cat: Category, init: Option<Model>)
    requires forall j :: 0 <= j < |cs| ==> !LoadsInto(cs[j], cat)
    ensures Scan(cs, cat, init) == init
    decreases |cs|
  {
    if cs != [] {
      var init' := cs[..|cs| - 1];
      assert forall j :: 0 <= j < |init'| ==> init'[j] == cs[j];
      ScanKeepsSlot(init', cat, init);
    }
  }

  /**
   * A candidate that is missing, fails to load or belongs elsewhere can be
   * dropped from the walk without changing the slot.
   */
  lemma ScanSkips(a: seq<Candidate>, x: Candidate, b: seq<Candidate>, cat: Category, init: Option<Model>)
    requires !LoadsInto(x, cat)
    ensures Scan(a + [x] + b, cat, init) == Scan(a + b, cat, init)
  {
    ScanAppend(a + [x], b, cat, init);
    ScanAppend(a, b, cat, init);
    assert (a + [x])[..|a + [x]| - 1] == a;
  }

  /** A slot is filled after the walk iff it was filled before or some candidate loads into it. */
  lemma {:induction false} ScanFills(cs: seq<Candidate>, cat: Category, init: Option<Model>)
    ensures Scan(cs, cat, init).Some? <==>
      init.Some? || exists k :: 0 <= k < |cs| && LoadsInto(cs[k], cat)
    decreases |cs|
  {
    if cs != [] {
      var n := |cs| - 1;
      var init' := cs[..n];
      if LoadsInto(cs[n], cat) {
        assert Scan(cs, cat, init) == cs[n].outcome;
        assert 0 <= n < |cs| && LoadsInto(cs[n], cat);
      } else {
        assert Scan(cs, cat, init) == Scan(init', cat, init);
        ScanFills(init', cat, init);
        assert forall k :: 0 <= k < n ==> init'[k] == cs[k];
      }
    }
  }

  datatype LoadError = NoModelFiles

  /** The module-level slots `model_lr` and `model_rf`. */
  class Registry {
    var lr: Option<Model>
    var rf: Option<Model>

    /** Both slots start as `None`. */
    constructor ()
      ensures lr == None && rf == None
    {
      lr := None;
      rf := None;
    }

    /** The list `load_model` builds: the local paths, extended by the Azure paths when hosted there. */
    static method CandidateList(env: Environment) returns (paths: seq<string>)
      ensures paths == CandidatePaths(OnAzure(env))
    {
      paths := LocalPaths;
      if OnAzure(env) {
        paths := paths + AzurePaths;
      }
    }

    /**
     * `load_model`: walks the candidates in order and assigns each slot from
     * every existing file of its kind that loads; both slots empty afterwards
     * is the "no model files" error.
     */
    method LoadModel(env: Environment) returns (err: Option<LoadError>)
      modifies this
      ensures lr == Scan(Candidates(env), Linear, old(lr))
      ensures rf == Scan(Candidates(env), Forest, old(rf))
      ensures err.Some? <==> lr.None? && rf.None?
    {
      var paths := CandidateList(env);
      ghost var cs := Probe(paths, env.files);
      var i := 0;
      while i < |paths|
        invariant 0 <= i <= |paths| == |cs|
        invariant cs == Probe(paths, env.files)
        invariant lr == Scan(cs[..i], Linear, old(lr))
        invariant rf == Scan(cs[..i], Forest, old(rf))
      {
        var path := paths[i];
        if path in env.files {
          var name := Lower(Name(path));
          var loaded := env.files[path];
          assert cs[i] == Candidate(path, true, loaded);
          if Contains(name, LinearTag) {
            assert Classify(path) == Linear;
            if loaded.Some? {
              lr := loaded;
            }
          } else if Contains(name, ForestTag) || Contains(name, ForestShortTag) {
            assert Classify(path) == Forest;
            if loaded.Some? {
              rf := loaded;
            }
          } else {
            assert Classify(path) == Unrecognised;
          }
        } else {
          assert cs[i] == Candidate(path, false, None);
        }
        ScanStep(cs, i, Linear, old(lr));
        ScanStep(cs, i, Forest, old(rf));
        i := i + 1;
      }
      assert cs[..i] == cs;
      if lr.None? && rf.None? {
        err := Some(NoModelFiles);
      } else {
        err := None;
      }
    }

    /**
     * The start-up hook: load, and on the "no model" error start anyway with
     * both slots empty.
     */
    constructor Startup(env: Environment)
      ensures lr == Scan(Candidates(env), Linear, None)
      ensures rf == Scan(Candidates(env), Forest, None)
    {
      lr := None;
      rf := None;
      new;
      var _ := LoadModel(env);
    }
  }
}
