/** The `manim` entry point: routing of the parsed command line to the `cfg`
    and `plugins` handlers or to rendering, the scene loop that opens the
    rendered files, and `open_file_if_needed`, which silences standard output
    while it asks the operating system to reveal or preview each file. */
module EntryPoint {
  import opened PyValues
  import opened Collaborators
  import RenderCommand

  /** The configuration entries read once `config.digest_args(args)` ran. */
  datatype Config = Config(
    verbosity: string,
    preview: bool,
    showInFileBrowser: bool,
    saveLastFrame: bool,
    writeToMovie: bool,
    saveAsGif: bool,
    useWebglRenderer: bool)

  /** What standard output is bound to: the terminal it started as, or the
      `id`-th file opened on the null device. */
  datatype Stream = Terminal | NullSink(id: nat)

  /** The observable steps of `main`. `Opened(path, inBrowser)` is a call
      `open_media_file(path, inBrowser)`. `FrameServerRun` means the WebGL
      branch was reached and did not fail by a missing module: the server was
      started, or importing or running it raised something other than
      `ModuleNotFoundError`. */
  datatype MainEvent =
    | Opened(path: string, inBrowser: bool)
    | SceneAttempted(index: nat)
    | ExceptionPrinted(index: nat)
    | FrameServerRun
    | WebGLDependencyHint

  // ---------------------------------------------------------------------------
  // Which files are opened, and in which order

  datatype Artifact = Image | Movie | Gif

  /** The place of each kind of file in the path list. */
  function Rank(a: Artifact): nat
  {
    match a
    case Image => 0
    case Movie => 1
    case Gif => 2
  }

  /** The files whose paths are collected: the last frame, the movie unless a
      GIF is written instead, the GIF. */
  function SelectedArtifacts(cfg: Config): (arts: seq<Artifact>)
    ensures Image in arts <==> cfg.saveLastFrame
    ensures Movie in arts <==> cfg.writeToMovie && !cfg.saveAsGif
    ensures Gif in arts <==> cfg.saveAsGif
    ensures !(Movie in arts && Gif in arts)
    // image, then movie, then GIF, each at most once
    ensures forall i, j :: 0 <= i < j < |arts| ==> Rank(arts[i]) < Rank(arts[j])
  {
    (if cfg.saveLastFrame then [Image] else []) +
    (if cfg.writeToMovie && !cfg.saveAsGif then [Movie] else []) +
    (if cfg.saveAsGif then [Gif] else [])
  }

  function PathOf(fw: FileWriter, a: Artifact): string
  {
    match a
    case Image => fw.imagePath
    case Movie => fw.moviePath
    case Gif => fw.gifPath
  }

  /** The path of each file, in the order given. */
  function PathsOf(fw: FileWriter, arts: seq<Artifact>): seq<string>
  {
    if arts == [] then [] else [PathOf(fw, arts[0])] + PathsOf(fw, arts[1..])
  }

  /** `file_paths`: the paths of the selected files. */
  function SelectedPaths(cfg: Config, fw: FileWriter): seq<string>
  {
    PathsOf(fw, SelectedArtifacts(cfg))
  }

  /** One path per file, at the file's own place. */
  lemma {:induction false} PathsOfFiles(fw: FileWriter, arts: seq<Artifact>)
    ensures |PathsOf(fw, arts)| == |arts|
    ensures forall i :: 0 <= i < |arts| ==> PathsOf(fw, arts)[i] == PathOf(fw, arts[i])
  {
    if arts != [] {
      PathsOfFiles(fw, arts[1..]);
    }
  }

  /** Adding a file adds its path at the end. */
  lemma {:induction false} PathsOfAppend(fw: FileWriter, arts: seq<Artifact>, a: Artifact)
    ensures PathsOf(fw, arts + [a]) == PathsOf(fw, arts) + [PathOf(fw, a)]
  {
    if arts != [] {
      assert (arts + [a])[1..] == arts[1..] + [a];
      PathsOfAppend(fw, arts[1..], a);
    }
  }

  /** The paths collected are those of the selected files, in the same order:
      the last frame's, the movie's unless a GIF is written instead, the
      GIF's. */
  lemma SelectedPathsOfArtifacts(cfg: Config, fw: FileWriter)
    ensures |SelectedPaths(cfg, fw)| == |SelectedArtifacts(cfg)|
    ensures forall i :: 0 <= i < |SelectedPaths(cfg, fw)| ==>
              SelectedPaths(cfg, fw)[i] == PathOf(fw, SelectedArtifacts(cfg)[i])
    ensures fw.imagePath in SelectedPaths(cfg, fw) <== cfg.saveLastFrame
    ensures fw.moviePath in SelectedPaths(cfg, fw) <== cfg.writeToMovie && !cfg.saveAsGif
    ensures fw.gifPath in SelectedPaths(cfg, fw) <== cfg.saveAsGif
  {
    var arts := SelectedArtifacts(cfg);
    PathsOfFiles(fw, arts);
    if cfg.saveLastFrame {
      assert arts[0] == Image;
    }
    if cfg.writeToMovie && !cfg.saveAsGif {
      var i := if cfg.saveLastFrame then 1 else 0;
      assert arts[i] == Movie;
    }
    if cfg.saveAsGif {
      assert arts[|arts| - 1] == Gif;
    }
  }

  /** The calls made for one path: reveal it in the file browser, then preview
      it, each only under its flag. */
  function OpensFor(cfg: Config, path: string): seq<MainEvent>
  {
    (if cfg.showInFileBrowser then [Opened(path, true)] else []) +
    (if cfg.preview then [Opened(path, false)] else [])
  }

  /** The number of flags that ask for an action per path. */
  function FlagCount(cfg: Config): nat
  {
    (if cfg.showInFileBrowser then 1 else 0) + (if cfg.preview then 1 else 0)
  }

  /** The calls made for all paths, path by path. */
  function PlannedOpens(cfg: Config, paths: seq<string>): seq<MainEvent>
  {
    if paths == [] then []
    else PlannedOpens(cfg, paths[..|paths| - 1]) + OpensFor(cfg, paths[|paths| - 1])
  }

  lemma {:induction false} PlannedOpensAppend(cfg: Config, a: seq<string>, b: seq<string>)
    ensures PlannedOpens(cfg, a + b) == PlannedOpens(cfg, a) + PlannedOpens(cfg, b)
  {
    if b == [] {
      assert a + b == a;
    } else {
      PlannedOpensAppend(cfg, a, b[..|b| - 1]);
      assert (a + b)[..|a + b| - 1] == a + b[..|b| - 1];
    }
  }

  /** One block of calls per path, each block `FlagCount` calls long, so the
      total is the number of paths times the number of flags set; with
      neither flag set nothing is opened. */
  lemma {:induction false} PlannedOpensCount(cfg: Config, paths: seq<string>)
    ensures |PlannedOpens(cfg, paths)| == |paths| * FlagCount(cfg)
    ensures FlagCount(cfg) == 0 <==> !cfg.preview && !cfg.showInFileBrowser
    ensures !cfg.preview && !cfg.showInFileBrowser ==> PlannedOpens(cfg, paths) == []
  {
    if paths != [] {
      PlannedOpensCount(cfg, paths[..|paths| - 1]);
      assert |OpensFor(cfg, paths[|paths| - 1])| == FlagCount(cfg);
      assert (|paths| - 1) * FlagCount(cfg) + FlagCount(cfg) == |paths| * FlagCount(cfg);
    }
  }

  /** The block of path `i` sits between those of the paths before and after
      it: paths are handled in order, and within each block the reveal comes
      before the preview. */
  lemma PlannedOpensOrder(cfg: Config, paths: seq<string>, i: nat)
    requires i < |paths|
    ensures PlannedOpens(cfg, paths) ==
              PlannedOpens(cfg, paths[..i]) + OpensFor(cfg, paths[i]) + PlannedOpens(cfg, paths[i + 1..])
  {
    assert paths == paths[..i] + [paths[i]] + paths[i + 1..];
    PlannedOpensAppend(cfg, paths[..i] + [paths[i]], paths[i + 1..]);
    PlannedOpensAppend(cfg, paths[..i], [paths[i]]);
    assert PlannedOpens(cfg, [paths[i]]) == PlannedOpens(cfg, []) + OpensFor(cfg, paths[i]);
  }

  /** The calls made for the first `j` paths are the first calls made. */
  lemma PlannedOpensPrefix(cfg: Config, paths: seq<string>, j: nat)
    requires j <= |paths|
    ensures |PlannedOpens(cfg, paths[..j])| <= |PlannedOpens(cfg, paths)|
    ensures PlannedOpens(cfg, paths)[..|PlannedOpens(cfg, paths[..j])|] == PlannedOpens(cfg, paths[..j])
  {
    assert paths == paths[..j] + paths[j..];
    PlannedOpensAppend(cfg, paths[..j], paths[j..]);
  }

  /** Handling one more path appends its block. */
  lemma PlannedOpensStep(cfg: Config, paths: seq<string>, i: nat)
    requires i < |paths|
    ensures PlannedOpens(cfg, paths[..i + 1]) == PlannedOpens(cfg, paths[..i]) + OpensFor(cfg, paths[i])
  {
    assert paths[..i + 1][..i] == paths[..i];
  }

  /** `open_media_file` call number `failAt` (counting from 0) raises. */
  predicate OpenRaises(planned: seq<MainEvent>, failAt: Option<nat>)
  {
    failAt.Some? && failAt.value < |planned|
  }

  /** The calls actually made: all of them, or those up to and including the
      one that raises. */
  function CallsMade(planned: seq<MainEvent>, failAt: Option<nat>): (made: seq<MainEvent>)
    ensures OpenRaises(planned, failAt) ==> |made| == failAt.value + 1
    ensures !OpenRaises(planned, failAt) ==> made == planned
    ensures made <= planned
  {
    if OpenRaises(planned, failAt) then planned[..failAt.value + 1] else planned
  }

  /** A call that raises while the first `j` paths are handled ends the
      calls made. */
  lemma FailingCall(cfg: Config, paths: seq<string>, j: nat, calls: seq<MainEvent>, failAt: Option<nat>)
    requires j <= |paths|
    requires calls <= PlannedOpens(cfg, paths[..j])
    requires failAt == Some(|calls| - 1)
    ensures OpenRaises(PlannedOpens(cfg, paths), failAt)
    ensures CallsMade(PlannedOpens(cfg, paths), failAt) == calls
  {
    PlannedOpensPrefix(cfg, paths, j);
  }

  // ---------------------------------------------------------------------------
  // Routing

  /** The parsed command line: `cmd` is `None` when the namespace has no
      `cmd` attribute. */
  datatype Namespace = Namespace(
    cmd: Option<string>,
    subcmd: Option<string>,
    level: Val,
    openAfter: Val,
    dir: Val,
    list: bool)

  /** Where `main` goes: a `cfg` handler with its arguments, the error that
      no `cfg` subcommand was given, an unknown `cfg` subcommand (nothing
      happens), the plugin list or the error that no flag was given, a
      command `main` does not handle (nothing happens), or rendering. */
  datatype Route =
    | CfgWrite(level: Val, openAfter: Val)
    | CfgShow
    | CfgExport(dir: Val)
    | CfgNoSubcommand
    | CfgOtherSubcommand
    | PluginsList
    | PluginsNoFlag
    | OtherCommand
    | RenderPath

  /** `if args.subcmd:` */
  predicate HasSubcommand(ns: Namespace)
  {
    ns.subcmd.Some? && ns.subcmd.value != ""
  }

  function RouteOf(ns: Namespace): (r: Route)
    ensures r == RenderPath <==> ns.cmd == None
    ensures r == OtherCommand <==> ns.cmd.Some? && ns.cmd.value != "cfg" && ns.cmd.value != "plugins"
    // each `cfg` handler is reached by exactly its subcommand, with the namespace's arguments
    ensures r.CfgWrite? <==> ns.cmd == Some("cfg") && ns.subcmd == Some("write")
    ensures r.CfgWrite? ==> r.level == ns.level && r.openAfter == ns.openAfter
    ensures r == CfgShow <==> ns.cmd == Some("cfg") && ns.subcmd == Some("show")
    ensures r.CfgExport? <==> ns.cmd == Some("cfg") && ns.subcmd == Some("export")
    ensures r.CfgExport? ==> r.dir == ns.dir
    ensures r == CfgNoSubcommand <==> ns.cmd == Some("cfg") && !HasSubcommand(ns)
    ensures r == CfgOtherSubcommand <==>
              ns.cmd == Some("cfg") && HasSubcommand(ns) && ns.subcmd.value !in {"write", "show", "export"}
    ensures r == PluginsList <==> ns.cmd == Some("plugins") && ns.list
    ensures r == PluginsNoFlag <==> ns.cmd == Some("plugins") && !ns.list
  {
    match ns.cmd
    case None => RenderPath
    case Some(cmd) =>
      if cmd == "cfg" then
        if HasSubcommand(ns) then
          if ns.subcmd.value == "write" then CfgWrite(ns.level, ns.openAfter)
          else if ns.subcmd.value == "show" then CfgShow
          else if ns.subcmd.value == "export" then CfgExport(ns.dir)
          else CfgOtherSubcommand
        else CfgNoSubcommand
      else if cmd == "plugins" then
        if ns.list then PluginsList else PluginsNoFlag
      else OtherCommand
  }

  // ---------------------------------------------------------------------------
  // The render path of `main`, as a log

  /** The calls `open_file_if_needed` makes for a scene that rendered. */
  function OpensMade(cfg: Config, scene: SceneClass): seq<MainEvent>
  {
    CallsMade(PlannedOpens(cfg, SelectedPaths(cfg, scene.writer)), scene.openFailsAt)
  }

  /** The scene rendered, and then opening one of its files raised. */
  predicate OpenFails(cfg: Config, scene: SceneClass)
  {
    !scene.renderRaises && OpenRaises(PlannedOpens(cfg, SelectedPaths(cfg, scene.writer)), scene.openFailsAt)
  }

  /** Something inside the `try` raised for this scene. */
  predicate SceneFails(cfg: Config, scene: SceneClass)
  {
    scene.renderRaises || OpenFails(cfg, scene)
  }

  /** The log of scene `i`: attempted; if it rendered, its files are opened;
      if anything raised, the exception is printed. */
  function SceneLog(cfg: Config, i: nat, scene: SceneClass): seq<MainEvent>
  {
    [SceneAttempted(i)] +
    (if scene.renderRaises then [] else OpensMade(cfg, scene)) +
    (if SceneFails(cfg, scene) then [ExceptionPrinted(i)] else [])
  }

  function MainLoopLog(cfg: Config, classes: seq<SceneClass>): seq<MainEvent>
  {
    if classes == [] then []
    else MainLoopLog(cfg, classes[..|classes| - 1]) + SceneLog(cfg, |classes| - 1, classes[|classes| - 1])
  }

  /** Appending a scene's log, case by case. */
  lemma SceneLogAppended(cfg: Config, i: nat, scene: SceneClass, prior: seq<MainEvent>)
    ensures scene.renderRaises ==>
              prior + SceneLog(cfg, i, scene) == prior + [SceneAttempted(i)] + [ExceptionPrinted(i)]
    ensures !scene.renderRaises && OpenFails(cfg, scene) ==>
              prior + SceneLog(cfg, i, scene) == prior + [SceneAttempted(i)] + OpensMade(cfg, scene) + [ExceptionPrinted(i)]
    ensures !scene.renderRaises && !OpenFails(cfg, scene) ==>
              prior + SceneLog(cfg, i, scene) == prior + [SceneAttempted(i)] + OpensMade(cfg, scene)
  {
    var attempt := [SceneAttempted(i)];
    if scene.renderRaises {
      assert SceneLog(cfg, i, scene) == attempt + [ExceptionPrinted(i)];
      AppendAssociates(prior, attempt, [ExceptionPrinted(i)]);
    } else {
      var opens := OpensMade(cfg, scene);
      if OpenFails(cfg, scene) {
        assert SceneLog(cfg, i, scene) == attempt + opens + [ExceptionPrinted(i)];
        AppendAssociates(prior, attempt + opens, [ExceptionPrinted(i)]);
        AppendAssociates(prior, attempt, opens);
      } else {
        assert SceneLog(cfg, i, scene) == attempt + opens + [];
        assert attempt + opens + [] == attempt + opens;
        AppendAssociates(prior, attempt, opens);
      }
    }
  }

  /** One more pass of the loop appends the next scene's log. */
  lemma MainLoopStep(cfg: Config, classes: seq<SceneClass>, i: nat)
    requires i < |classes|
    ensures MainLoopLog(cfg, classes[..i + 1]) == MainLoopLog(cfg, classes[..i]) + SceneLog(cfg, i, classes[i])
    ensures AnyOpenFails(cfg, classes[..i + 1]) == (AnyOpenFails(cfg, classes[..i]) || OpenFails(cfg, classes[i]))
  {
    assert classes[..i + 1][..i] == classes[..i];
  }

  /** Sequence associativity, stated once so that a proof can name the
      regrouping it needs instead of leaving the solver to find it. */
  lemma AppendAssociates(a: seq<MainEvent>, b: seq<MainEvent>, c: seq<MainEvent>)
    ensures a + b + c == a + (b + c)
  {
  }

  /** Some scene rendered and then failed while its files were opened. */
  predicate AnyOpenFails(cfg: Config, classes: seq<SceneClass>)
  {
    classes != [] && (AnyOpenFails(cfg, classes[..|classes| - 1]) || OpenFails(cfg, classes[|classes| - 1]))
  }

  lemma {:induction false} AnyOpenFailsMembers(cfg: Config, classes: seq<SceneClass>)
    ensures AnyOpenFails(cfg, classes) <==> exists i :: 0 <= i < |classes| && OpenFails(cfg, classes[i])
  {
    if classes != [] {
      var n := |classes|;
      var init := classes[..n - 1];
      AnyOpenFailsMembers(cfg, init);
      forall i | 0 <= i < n - 1
        ensures OpenFails(cfg, init[i]) == OpenFails(cfg, classes[i])
      {
        assert init[i] == classes[i];
      }
    }
  }

  /** The frame server's log: the run, unless it fails by a missing module,
      in which case the hint is printed instead. */
  function ServerLog(server: ServerOutcome): seq<MainEvent>
  {
    if server == DependencyMissing then [WebGLDependencyHint] else [FrameServerRun]
  }

  // ---------------------------------------------------------------------------
  // Reading the log

  function Attempts(log: seq<MainEvent>): seq<nat>
  {
    if log == [] then []
    else Attempts(log[..|log| - 1]) + (if log[|log| - 1].SceneAttempted? then [log[|log| - 1].index] else [])
  }

  function Failures(log: seq<MainEvent>): seq<nat>
  {
    if log == [] then []
    else Failures(log[..|log| - 1]) + (if log[|log| - 1].ExceptionPrinted? then [log[|log| - 1].index] else [])
  }

  /** The `open_media_file` calls, in order. */
  function Opens(log: seq<MainEvent>): seq<MainEvent>
  {
    if log == [] then []
    else Opens(log[..|log| - 1]) + (if log[|log| - 1].Opened? then [log[|log| - 1]] else [])
  }

  lemma LogFiltersDistribute(a: seq<MainEvent>, b: seq<MainEvent>)
    ensures Attempts(a + b) == Attempts(a) + Attempts(b)
    ensures Failures(a + b) == Failures(a) + Failures(b)
    ensures Opens(a + b) == Opens(a) + Opens(b)
  {
    AttemptsDistribute(a, b);
    FailuresDistribute(a, b);
    OpensDistribute(a, b);
  }

  lemma {:induction false} AttemptsDistribute(a: seq<MainEvent>, b: seq<MainEvent>)
    ensures Attempts(a + b) == Attempts(a) + Attempts(b)
  {
    if b == [] {
      assert a + b == a;
    } else {
      AttemptsDistribute(a, b[..|b| - 1]);
      assert (a + b)[..|a + b| - 1] == a + b[..|b| - 1];
    }
  }

  lemma {:induction false} FailuresDistribute(a: seq<MainEvent>, b: seq<MainEvent>)
    ensures Failures(a + b) == Failures(a) + Failures(b)
  {
    if b == [] {
      assert a + b == a;
    } else {
      FailuresDistribute(a, b[..|b| - 1]);
      assert (a + b)[..|a + b| - 1] == a + b[..|b| - 1];
    }
  }

  lemma {:induction false} OpensDistribute(a: seq<MainEvent>, b: seq<MainEvent>)
    ensures Opens(a + b) == Opens(a) + Opens(b)
  {
    if b == [] {
      assert a + b == a;
    } else {
      OpensDistribute(a, b[..|b| - 1]);
      assert (a + b)[..|a + b| - 1] == a + b[..|b| - 1];
    }
  }

  // A list of `open_media_file` calls is its own `Opens` filter and holds
  // no attempt and no printed exception.

  lemma {:induction false} CallsOpens(calls: seq<MainEvent>)
    requires forall e :: e in calls ==> e.Opened?
    ensures Opens(calls) == calls
  {
    if calls != [] {
      var init := calls[..|calls| - 1];
      assert forall e :: e in init ==> e in calls;
      CallsOpens(init);
      assert calls == init + [calls[|calls| - 1]];
    }
  }

  lemma {:induction false} CallsAttempts(calls: seq<MainEvent>)
    requires forall e :: e in calls ==> e.Opened?
    ensures Attempts(calls) == []
  {
    if calls != [] {
      var init := calls[..|calls| - 1];
      assert forall e :: e in init ==> e in calls;
      CallsAttempts(init);
      assert calls[|calls| - 1] in calls;
    }
  }

  lemma {:induction false} CallsFailures(calls: seq<MainEvent>)
    requires forall e :: e in calls ==> e.Opened?
    ensures Failures(calls) == []
  {
    if calls != [] {
      var init := calls[..|calls| - 1];
      assert forall e :: e in init ==> e in calls;
      CallsFailures(init);
      assert calls[|calls| - 1] in calls;
    }
  }

  lemma {:induction false} PlannedOpensAreCalls(cfg: Config, paths: seq<string>)
    ensures forall e :: e in PlannedOpens(cfg, paths) ==> e.Opened?
  {
    if paths != [] {
      PlannedOpensAreCalls(cfg, paths[..|paths| - 1]);
    }
  }

  /** The indices of the scenes for which an exception is printed. */
  function FailingIndices(cfg: Config, classes: seq<SceneClass>): seq<nat>
  {
    if classes == [] then []
    else FailingIndices(cfg, classes[..|classes| - 1]) +
         (if SceneFails(cfg, classes[|classes| - 1]) then [|classes| - 1] else [])
  }

  lemma {:induction false} FailingIndicesMembers(cfg: Config, classes: seq<SceneClass>)
    ensures forall i :: i in FailingIndices(cfg, classes) <==> 0 <= i < |classes| && SceneFails(cfg, classes[i])
  {
    if classes != [] {
      var n := |classes|;
      var init := classes[..n - 1];
      FailingIndicesMembers(cfg, init);
      forall i | 0 <= i < n - 1
        ensures SceneFails(cfg, init[i]) == SceneFails(cfg, classes[i])
      {
        assert init[i] == classes[i];
      }
    }
  }

  /** The calls made for the scenes that rendered, scene by scene. */
  function RenderedOpens(cfg: Config, classes: seq<SceneClass>): seq<MainEvent>
  {
    if classes == [] then []
    else RenderedOpens(cfg, classes[..|classes| - 1]) +
         (if classes[|classes| - 1].renderRaises then [] else OpensMade(cfg, classes[|classes| - 1]))
  }

  // The filters of one scene's shape of log: an attempt, some calls, and
  // possibly a printed exception.

  lemma SceneShapeAttempts(i: nat, calls: seq<MainEvent>, fails: bool)
    requires forall e :: e in calls ==> e.Opened?
    ensures Attempts([SceneAttempted(i)] + calls + (if fails then [ExceptionPrinted(i)] else [])) == [i]
  {
    CallsAttempts(calls);
    var last: seq<MainEvent> := if fails then [ExceptionPrinted(i)] else [];
    SingleEventFilters(SceneAttempted(i));
    if fails {
      SingleEventFilters(ExceptionPrinted(i));
    } else {
      assert Attempts(last) == [];
    }
    AttemptsOfParts([SceneAttempted(i)], calls, last);
  }

  lemma SceneShapeFailures(i: nat, calls: seq<MainEvent>, fails: bool)
    requires forall e :: e in calls ==> e.Opened?
    ensures Failures([SceneAttempted(i)] + calls + (if fails then [ExceptionPrinted(i)] else [])) ==
              if fails then [i] else []
  {
    CallsFailures(calls);
    var last: seq<MainEvent> := if fails then [ExceptionPrinted(i)] else [];
    SingleEventFilters(SceneAttempted(i));
    if fails {
      SingleEventFilters(ExceptionPrinted(i));
    } else {
      assert Failures(last) == [];
    }
    FailuresOfParts([SceneAttempted(i)], calls, last);
  }

  lemma SceneShapeOpens(i: nat, calls: seq<MainEvent>, fails: bool)
    requires forall e :: e in calls ==> e.Opened?
    ensures Opens([SceneAttempted(i)] + calls + (if fails then [ExceptionPrinted(i)] else [])) == calls
  {
    CallsOpens(calls);
    var last: seq<MainEvent> := if fails then [ExceptionPrinted(i)] else [];
    SingleEventFilters(SceneAttempted(i));
    if fails {
      SingleEventFilters(ExceptionPrinted(i));
    } else {
      assert Opens(last) == [];
    }
    OpensOfParts([SceneAttempted(i)], calls, last);
  }

  lemma SingleEventFilters(e: MainEvent)
    ensures Attempts([e]) == if e.SceneAttempted? then [e.index] else []
    ensures Failures([e]) == if e.ExceptionPrinted? then [e.index] else []
    ensures Opens([e]) == if e.Opened? then [e] else []
  {
    assert [e][..0] == [];
  }

  lemma AttemptsOfParts(a: seq<MainEvent>, b: seq<MainEvent>, c: seq<MainEvent>)
    ensures Attempts(a + b + c) == Attempts(a) + Attempts(b) + Attempts(c)
  {
    AttemptsDistribute(a, b);
    AttemptsDistribute(a + b, c);
  }

  lemma FailuresOfParts(a: seq<MainEvent>, b: seq<MainEvent>, c: seq<MainEvent>)
    ensures Failures(a + b + c) == Failures(a) + Failures(b) + Failures(c)
  {
    FailuresDistribute(a, b);
    FailuresDistribute(a + b, c);
  }

  lemma OpensOfParts(a: seq<MainEvent>, b: seq<MainEvent>, c: seq<MainEvent>)
    ensures Opens(a + b + c) == Opens(a) + Opens(b) + Opens(c)
  {
    OpensDistribute(a, b);
    OpensDistribute(a + b, c);
  }

  /** One scene's log holds its one attempt, its calls only if it rendered,
      and a printed exception exactly when something raised. */
  lemma SceneLogFilters(cfg: Config, i: nat, scene: SceneClass)
    ensures Attempts(SceneLog(cfg, i, scene)) == [i]
    ensures Failures(SceneLog(cfg, i, scene)) == if SceneFails(cfg, scene) then [i] else []
    ensures Opens(SceneLog(cfg, i, scene)) == if scene.renderRaises then [] else OpensMade(cfg, scene)
  {
    PlannedOpensAreCalls(cfg, SelectedPaths(cfg, scene.writer));
    var calls := if scene.renderRaises then [] else OpensMade(cfg, scene);
    SceneShapeAttempts(i, calls, SceneFails(cfg, scene));
    SceneShapeFailures(i, calls, SceneFails(cfg, scene));
    SceneShapeOpens(i, calls, SceneFails(cfg, scene));
  }

  /** The render loop attempts every scene, in order, whatever the others
      did; an exception is printed for exactly the scenes whose rendering or
      file opening raised; and `open_file_if_needed` runs only for the scenes
      whose `render()` returned. */
  lemma MainLoopFilters(cfg: Config, classes: seq<SceneClass>)
    ensures Attempts(MainLoopLog(cfg, classes)) == RenderCommand.Indices(|classes|)
    ensures Failures(MainLoopLog(cfg, classes)) == FailingIndices(cfg, classes)
    ensures Opens(MainLoopLog(cfg, classes)) == RenderedOpens(cfg, classes)
  {
    MainLoopAttempts(cfg, classes);
    MainLoopFailures(cfg, classes);
    MainLoopOpens(cfg, classes);
  }

  lemma {:induction false} MainLoopAttempts(cfg: Config, classes: seq<SceneClass>)
    ensures Attempts(MainLoopLog(cfg, classes)) == RenderCommand.Indices(|classes|)
  {
    if classes != [] {
      var n := |classes|;
      MainLoopAttempts(cfg, classes[..n - 1]);
      SceneLogFilters(cfg, n - 1, classes[n - 1]);
      AttemptsDistribute(MainLoopLog(cfg, classes[..n - 1]), SceneLog(cfg, n - 1, classes[n - 1]));
    }
  }

  lemma {:induction false} MainLoopFailures(cfg: Config, classes: seq<SceneClass>)
    ensures Failures(MainLoopLog(cfg, classes)) == FailingIndices(cfg, classes)
  {
    if classes != [] {
      var n := |classes|;
      MainLoopFailures(cfg, classes[..n - 1]);
      SceneLogFilters(cfg, n - 1, classes[n - 1]);
      FailuresDistribute(MainLoopLog(cfg, classes[..n - 1]), SceneLog(cfg, n - 1, classes[n - 1]));
    }
  }

  lemma {:induction false} MainLoopOpens(cfg: Config, classes: seq<SceneClass>)
    ensures Opens(MainLoopLog(cfg, classes)) == RenderedOpens(cfg, classes)
  {
    if classes != [] {
      var n := |classes|;
      MainLoopOpens(cfg, classes[..n - 1]);
      SceneLogFilters(cfg, n - 1, classes[n - 1]);
      OpensDistribute(MainLoopLog(cfg, classes[..n - 1]), SceneLog(cfg, n - 1, classes[n - 1]));
    }
  }

  // ---------------------------------------------------------------------------
  // The two steps of `open_file_if_needed` that do not touch standard output

  /** Collects `file_paths`. */
  method FilePaths(cfg: Config, fw: FileWriter) returns (paths: seq<string>)
    ensures paths == SelectedPaths(cfg, fw)
  {
    paths := [];
    ghost var arts: seq<Artifact> := [];
    if cfg.saveLastFrame {
      PathsOfAppend(fw, arts, Image);
      paths, arts := paths + [fw.imagePath], arts + [Image];
    }
    if cfg.writeToMovie && !cfg.saveAsGif {
      PathsOfAppend(fw, arts, Movie);
      paths, arts := paths + [fw.moviePath], arts + [Movie];
    }
    if cfg.saveAsGif {
      PathsOfAppend(fw, arts, Gif);
      paths, arts := paths + [fw.gifPath], arts + [Gif];
    }
    assert arts == SelectedArtifacts(cfg);
  }

  /** The loop over `file_paths`: reveal, then preview, each path in turn,
      stopping at call number `failAt`, which raises. */
  method OpenEach(cfg: Config, paths: seq<string>, failAt: Option<nat>) returns (calls: seq<MainEvent>, raised: bool)
    ensures raised == OpenRaises(PlannedOpens(cfg, paths), failAt)
    ensures calls == CallsMade(PlannedOpens(cfg, paths), failAt)
  {
    calls := [];
    raised := false;
    for i := 0 to |paths|
      invariant calls == PlannedOpens(cfg, paths[..i])
      invariant !OpenRaises(calls, failAt)
    {
      PlannedOpensStep(cfg, paths, i);
      if cfg.showInFileBrowser {
        calls := calls + [Opened(paths[i], true)];
        if failAt == Some(|calls| - 1) {
          FailingCall(cfg, paths, i + 1, calls, failAt);
          raised := true;
          return;
        }
      }
      if cfg.preview {
        calls := calls + [Opened(paths[i], false)];
        if failAt == Some(|calls| - 1) {
          FailingCall(cfg, paths, i + 1, calls, failAt);
          raised := true;
          return;
        }
      }
    }
    assert paths[..|paths|] == paths;
  }

  // ---------------------------------------------------------------------------
  // The process: standard output and the log of what `main` did

  class Process {
    var stdout: Stream
    /** How many null-device files were opened so far. */
    var sinksOpened: nat
    /** The null-device files closed so far. */
    var closed: set<nat>
    var log: seq<MainEvent>

    /** Every null-device file bound or closed was opened before. */
    predicate Valid()
      reads this
    {
      (forall id :: id in closed ==> id < sinksOpened) && (stdout.NullSink? ==> stdout.id < sinksOpened)
    }

    constructor ()
      ensures Valid() && stdout == Terminal && sinksOpened == 0 && closed == {} && log == []
    {
      stdout, sinksOpened, closed, log := Terminal, 0, {}, [];
    }

    /** `open_file_if_needed(file_writer)`. Call number `failAt` of
        `open_media_file`, if any, raises; the exception leaves the method
        before standard output is restored. */
    method OpenFileIfNeeded(cfg: Config, fw: FileWriter, failAt: Option<nat>) returns (raised: bool)
      requires Valid()
      modifies this
      ensures Valid()
      ensures raised == OpenRaises(PlannedOpens(cfg, SelectedPaths(cfg, fw)), failAt)
      ensures log == old(log) + CallsMade(PlannedOpens(cfg, SelectedPaths(cfg, fw)), failAt)
      // with DEBUG verbosity standard output is never touched
      ensures cfg.verbosity == "DEBUG" ==>
                stdout == old(stdout) && sinksOpened == old(sinksOpened) && closed == old(closed)
      // otherwise it is swapped for a fresh null file ...
      ensures cfg.verbosity != "DEBUG" ==> sinksOpened == old(sinksOpened) + 1
      // ... which is closed and replaced by the old stream when nothing raised,
      ensures cfg.verbosity != "DEBUG" && !raised ==>
                stdout == old(stdout) && closed == old(closed) + {old(sinksOpened)}
      // ... and stays bound, open, when a call raised
      ensures cfg.verbosity != "DEBUG" && raised ==> stdout == NullSink(old(sinksOpened)) && closed == old(closed)
    {
      var saved := stdout;
      if cfg.verbosity != "DEBUG" {
        stdout := NullSink(sinksOpened);
        sinksOpened := sinksOpened + 1;
      }
      if cfg.preview || cfg.showInFileBrowser {
        var paths := FilePaths(cfg, fw);
        var calls;
        calls, raised := OpenEach(cfg, paths, failAt);
        log := log + calls;
        if raised {
          return;
        }
      } else {
        PlannedOpensCount(cfg, SelectedPaths(cfg, fw));
      }
      if cfg.verbosity != "DEBUG" {
        closed := closed + {stdout.id};
        stdout := saved;
      }
      raised := false;
    }

    /** One pass of the scene loop: the scene is built and rendered, its
        files are opened, and whatever raised inside the `try` is printed. */
    method RunScene(cfg: Config, i: nat, scene: SceneClass)
      requires Valid()
      modifies this
      ensures Valid()
      ensures log == old(log) + SceneLog(cfg, i, scene)
      ensures sinksOpened >= old(sinksOpened)
      ensures closed <= old(closed) + {old(sinksOpened)}
      ensures cfg.verbosity == "DEBUG" || !OpenFails(cfg, scene) ==> stdout == old(stdout)
      ensures cfg.verbosity != "DEBUG" && OpenFails(cfg, scene) ==> stdout.NullSink? && stdout.id !in closed
    {
      SceneLogAppended(cfg, i, scene, log);
      log := log + [SceneAttempted(i)];
      if scene.renderRaises {
        log := log + [ExceptionPrinted(i)];
      } else {
        var raised := OpenFileIfNeeded(cfg, scene.writer, scene.openFailsAt);
        if raised {
          log := log + [ExceptionPrinted(i)];
        }
      }
    }

    /** The `else` branch of `main` without WebGL: every scene is built,
        rendered and its files opened inside one `try`. */
    method RunScenes(cfg: Config, classes: seq<SceneClass>)
      requires Valid()
      modifies this
      ensures Valid()
      ensures log == old(log) + MainLoopLog(cfg, classes)
      ensures cfg.verbosity == "DEBUG" || !AnyOpenFails(cfg, classes) ==> stdout == old(stdout)
      // once opening a file raised, standard output stays bound to a null
      // file that is never closed, for the rest of the run
      ensures cfg.verbosity != "DEBUG" && AnyOpenFails(cfg, classes) ==> stdout.NullSink? && stdout.id !in closed
    {
      ghost var log0 := log;
      for i := 0 to |classes|
        invariant Valid()
        invariant log == log0 + MainLoopLog(cfg, classes[..i])
        invariant cfg.verbosity == "DEBUG" || !AnyOpenFails(cfg, classes[..i]) ==> stdout == old(stdout)
        invariant cfg.verbosity != "DEBUG" && AnyOpenFails(cfg, classes[..i]) ==>
                    stdout.NullSink? && stdout.id !in closed
      {
        MainLoopStep(cfg, classes, i);
        AppendAssociates(log0, MainLoopLog(cfg, classes[..i]), SceneLog(cfg, i, classes[i]));
        RunScene(cfg, i, classes[i]);
      }
      assert classes[..|classes|] == classes;
    }

    /** `main()`. `digestRaises` says whether `config.digest_args(args)` (with
        the `input_file` lookup after it) raises, and `cfg` is the
        configuration it leaves behind when it does not; `source` is what
        `scene_classes_from_file` does; `server` is how the frame server run
        ends. The `cfg` and `plugins` handlers are not modelled beyond the
        route taken. */
    method Run(ns: Namespace, digestRaises: bool, cfg: Config, source: SceneSource, server: ServerOutcome)
      returns (route: Route, raised: bool)
      requires Valid()
      modifies this
      ensures Valid()
      ensures route == RouteOf(ns)
      ensures route != RenderPath ==> log == old(log) && stdout == old(stdout) && !raised
      // digesting and loading the scenes happen outside any `try`
      ensures route == RenderPath && digestRaises ==> log == old(log) && stdout == old(stdout) && raised
      ensures route == RenderPath && !digestRaises && !cfg.useWebglRenderer && source.LoadRaised? ==>
                log == old(log) && stdout == old(stdout) && raised
      // WebGL runs only the frame server; only a missing module is caught
      ensures route == RenderPath && !digestRaises && cfg.useWebglRenderer ==>
                log == old(log) + ServerLog(server) && stdout == old(stdout) &&
                (raised <==> server == ServerRaised)
      ensures route == RenderPath && !digestRaises && !cfg.useWebglRenderer && source.Loaded? ==>
                log == old(log) + MainLoopLog(cfg, source.classes) && !raised &&
                (cfg.verbosity == "DEBUG" || !AnyOpenFails(cfg, source.classes) ==> stdout == old(stdout))
    {
      route := RouteOf(ns);
      raised := false;
      if route != RenderPath {
        return;
      }
      if digestRaises {
        raised := true;
        return;
      }
      if cfg.useWebglRenderer {
        if server == DependencyMissing {
          log := log + [WebGLDependencyHint];
        } else {
          log := log + [FrameServerRun];
          raised := server == ServerRaised;
        }
      } else {
        match source
        case LoadRaised =>
          raised := true;
        case Loaded(classes) =>
          RunScenes(cfg, classes);
      }
    }
  }
}
