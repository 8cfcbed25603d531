/** The `render` command: it refuses the legacy argument order, collects its
    parameters into the `args` mapping, resolves the deprecated renderer
    flags, wraps `args` in a `ClickArgs` object, and then either hands that
    object back (Jupyter) or lets the configuration digest it and runs the
    backend the configuration names, attempting every scene in turn. */
module RenderCommand {
  import opened PyValues
  import opened Collaborators
  import opened RenderArgs

  // ---------------------------------------------------------------------------
  // What the command does, as an ordered log of observable events

  datatype Backend = Cairo | OpenGL | WebGL

  /** `FrameServerRun`: the WebGL branch was reached and did not fail by a
      missing module: the server was started, or importing or running it
      raised something other than `ModuleNotFoundError`.
      `WebGLDependencyHint`: it failed by a missing module. */
  datatype Event =
    | LegacySyntaxWarning
    | OpenGLFlagDeprecated
    | WebGLFlagDeprecated
    | OneRendererOnly
    | ArgsDigested(args: map<ArgKey, Val>)
    | SceneAttempted(index: nat, backend: Backend)
    | ExceptionPrinted(index: nat)
    | FrameServerRun
    | WebGLDependencyHint

  /** How the command ends: `sys.exit()`, returning the `ClickArgs` object
      (given by its attributes), returning `args`, or an exception escaping. */
  datatype Outcome =
    | Exited
    | ReturnedClickArgs(attrs: map<ArgKey, Val>)
    | ReturnedArgs(args: map<ArgKey, Val>)
    | Raised

  /** The scene indices attempted, in log order. */
  function Attempts(events: seq<Event>): seq<nat>
  {
    if events == [] then []
    else Attempts(events[..|events| - 1]) +
         (if events[|events| - 1].SceneAttempted? then [events[|events| - 1].index] else [])
  }

  /** The scene indices whose exception was printed, in log order. */
  function Failures(events: seq<Event>): seq<nat>
  {
    if events == [] then []
    else Failures(events[..|events| - 1]) +
         (if events[|events| - 1].ExceptionPrinted? then [events[|events| - 1].index] else [])
  }

  /** The arguments handed to `config.digest_args`, in log order. */
  function Digests(events: seq<Event>): seq<map<ArgKey, Val>>
  {
    if events == [] then []
    else Digests(events[..|events| - 1]) +
         (if events[|events| - 1].ArgsDigested? then [events[|events| - 1].args] else [])
  }

  lemma {:induction false} LogFiltersDistribute(a: seq<Event>, b: seq<Event>)
    ensures Attempts(a + b) == Attempts(a) + Attempts(b)
    ensures Failures(a + b) == Failures(a) + Failures(b)
    ensures Digests(a + b) == Digests(a) + Digests(b)
  {
    if b != [] {
      LogFiltersDistribute(a, b[..|b| - 1]);
      assert (a + b)[..|a + b| - 1] == a + b[..|b| - 1];
    } else {
      assert a + b == a;
    }
  }

  /** A log with no scene attempt, no printed exception and no digest. */
  predicate Quiet(events: seq<Event>)
  {
    Attempts(events) == [] && Failures(events) == [] && Digests(events) == []
  }

  lemma {:induction false} QuietOfPlainEvents(events: seq<Event>)
    requires forall e :: e in events ==> !e.SceneAttempted? && !e.ExceptionPrinted? && !e.ArgsDigested?
    ensures Quiet(events)
  {
    if events != [] {
      QuietOfPlainEvents(events[..|events| - 1]);
    }
  }

  /** 0, 1, ..., n - 1 */
  function Indices(n: nat): (r: seq<nat>)
    ensures |r| == n && forall i :: 0 <= i < n ==> r[i] == i
  {
    if n == 0 then [] else Indices(n - 1) + [n - 1]
  }

  // ---------------------------------------------------------------------------
  // Legacy argument order

  predicate StartsWithDash(s: string) { |s| > 0 && s[0] == '-' }

  /** Whether some scene token starts with `-`, i.e. options were given after
      the positional arguments. */
  method FindLegacySyntax(scenes: seq<string>) returns (found: bool)
    ensures found <==> exists i :: 0 <= i < |scenes| && StartsWithDash(scenes[i])
  {
    for i := 0 to |scenes|
      invariant forall j :: 0 <= j < i ==> !StartsWithDash(scenes[j])
    {
      if StartsWithDash(scenes[i]) {
        return true;
      }
    }
    return false;
  }

  // ---------------------------------------------------------------------------
  // Deprecated renderer flags

  /** The warning each deprecated flag logs, in the order they are looked at. */
  function DeprecationWarnings(useOpengl: bool, useWebgl: bool): seq<Event>
  {
    (if useOpengl then [OpenGLFlagDeprecated] else []) + (if useWebgl then [WebGLFlagDeprecated] else [])
  }

  /** The local `renderer` after the two deprecated flags are looked at, the
      warnings logged on the way, and whether the command must exit because
      both flags are set. */
  method ResolveDeprecatedRenderer(renderer: Val, useOpengl: bool, useWebgl: bool)
    returns (resolved: Val, warnings: seq<Event>, conflict: bool)
    ensures conflict <==> useOpengl && useWebgl
    ensures useOpengl && !useWebgl ==> resolved == Text("opengl")
    ensures !useOpengl && useWebgl ==> resolved == Text("webgl")
    ensures !useOpengl && !useWebgl ==> resolved == renderer
    ensures warnings == if conflict then DeprecationWarnings(useOpengl, useWebgl) + [OneRendererOnly]
                        else DeprecationWarnings(useOpengl, useWebgl)
  {
    resolved, warnings := renderer, [];
    if useOpengl {
      warnings := warnings + [OpenGLFlagDeprecated];
      resolved := Text("opengl");
    }
    if useWebgl {
      warnings := warnings + [WebGLFlagDeprecated];
      resolved := Text("webgl");
    }
    conflict := false;
    if useWebgl && useOpengl {
      warnings := warnings + [OneRendererOnly];
      conflict := true;
    }
  }

  // ---------------------------------------------------------------------------
  // ClickArgs: an attribute bag built from `args`

  /** An instance of the class `ClickArgs`. `render` defines the class in its
      body, so every call makes a class of its own; `cls` tells which call's
      class the instance belongs to. */
  class ClickArgs {
    const cls: nat

    /** The instance attributes (`vars(self)`). */
    var attrs: map<ArgKey, Val>

    /** `setattr(self, name, value)` */
    method SetAttr(name: ArgKey, value: Val)
      modifies this
      ensures attrs == old(attrs)[name := value]
    {
      attrs := attrs[name := value];
    }

    /** One attribute per key of `args`, holding that key's value. */
    constructor (cls: nat, args: map<ArgKey, Val>)
      ensures this.cls == cls && attrs == args
    {
      this.cls := cls;
      attrs := map[];
      new;
      var pending := args.Keys;
      while pending != {}
        invariant pending <= args.Keys
        invariant attrs.Keys == args.Keys - pending
        invariant forall k :: k in attrs ==> attrs[k] == args[k]
        decreases pending
      {
        var name :| name in pending;
        SetAttr(name, args[name]);
        pending := pending - {name};
      }
    }

    /** `__contains__`: key membership. */
    predicate Contains(key: ArgKey)
      reads this
      ensures Contains(key) <==> exists v :: (key, v) in Kwargs()
    {
      assert key in attrs ==> (key, attrs[key]) in Kwargs();
      key in attrs
    }

    /** `_get_kwargs`: the (name, value) pairs of the attributes. */
    function Kwargs(): (items: set<(ArgKey, Val)>)
      reads this
      ensures forall k :: k in attrs ==> (k, attrs[k]) in items
      ensures forall item :: item in items ==> item.0 in attrs && attrs[item.0] == item.1
    {
      set k | k in attrs :: (k, attrs[k])
    }

    /** `==`: within one call's class, `__eq__` compares the attributes. An
        instance of another call's class is not a `ClickArgs` in the sense of
        `isinstance`, so both sides answer `NotImplemented` and Python falls
        back to identity, which two objects of different classes never share. */
    predicate Equals(other: ClickArgs)
      reads this, other
      ensures Equals(other) <==> cls == other.cls && Kwargs() == other.Kwargs()
    {
      KwargsDetermineAttrs(this, other);
      cls == other.cls && attrs == other.attrs
    }
  }

  /** Two instances have the same (name, value) pairs exactly when they have
      the same attributes. */
  lemma KwargsDetermineAttrs(a: ClickArgs, b: ClickArgs)
    ensures a.Kwargs() == b.Kwargs() <==> a.attrs == b.attrs
  {
    if a.attrs != b.attrs {
      var k :| (k in a.attrs && (k !in b.attrs || a.attrs[k] != b.attrs[k])) ||
               (k in b.attrs && k !in a.attrs);
      if k in a.attrs {
        assert (k, a.attrs[k]) in a.Kwargs() && (k, a.attrs[k]) !in b.Kwargs();
      } else {
        assert (k, b.attrs[k]) in b.Kwargs() && (k, b.attrs[k]) !in a.Kwargs();
      }
    }
  }

  // ---------------------------------------------------------------------------
  // Scene loops of the OpenGL and default backends

  /** The log of one attempt at scene `i`: it is attempted, and if building or
      rendering it raises, the exception is printed. */
  function SceneTrace(i: nat, scene: SceneClass, backend: Backend): seq<Event>
  {
    [SceneAttempted(i, backend)] + (if scene.renderRaises then [ExceptionPrinted(i)] else [])
  }

  lemma SceneTraceLog(i: nat, scene: SceneClass, backend: Backend)
    ensures Attempts(SceneTrace(i, scene, backend)) == [i]
    ensures Failures(SceneTrace(i, scene, backend)) == if scene.renderRaises then [i] else []
    ensures Digests(SceneTrace(i, scene, backend)) == []
  {
    var first := [SceneAttempted(i, backend)];
    assert first[..|first| - 1] == [];
    assert Failures(first) == Failures([]) + [];
    assert Digests(first) == Digests([]) + [];
    assert Attempts(first) == Attempts([]) + [i];
    var t := SceneTrace(i, scene, backend);
    if scene.renderRaises {
      assert t == first + [ExceptionPrinted(i)];
      assert t[..|t| - 1] == first;
    } else {
      assert t == first;
    }
  }

  /** The log of attempting every scene, in order. */
  function LoopTrace(classes: seq<SceneClass>, backend: Backend): seq<Event>
  {
    if classes == [] then []
    else LoopTrace(classes[..|classes| - 1], backend) + SceneTrace(|classes| - 1, classes[|classes| - 1], backend)
  }

  /** The indices of the scenes whose construction or rendering raises, in order. */
  function RaisingIndices(classes: seq<SceneClass>): seq<nat>
  {
    if classes == [] then []
    else RaisingIndices(classes[..|classes| - 1]) +
         (if classes[|classes| - 1].renderRaises then [|classes| - 1] else [])
  }

  lemma {:induction false} RaisingIndicesMembers(classes: seq<SceneClass>)
    ensures forall i :: i in RaisingIndices(classes) <==> 0 <= i < |classes| && classes[i].renderRaises
  {
    if classes != [] {
      var n := |classes|;
      RaisingIndicesMembers(classes[..n - 1]);
      assert forall i :: 0 <= i < n - 1 ==> classes[..n - 1][i] == classes[i];
    }
  }

  /** When `ran`, the log attempts every scene in order and prints the
      exception of exactly the scenes that raise; otherwise it attempts none. */
  predicate ScenesLogged(events: seq<Event>, classes: seq<SceneClass>, ran: bool)
  {
    Attempts(events) == (if ran then Indices(|classes|) else []) &&
    Failures(events) == (if ran then RaisingIndices(classes) else [])
  }

  /** Every scene is attempted, in order, whatever the others did; an
      exception is printed for exactly the scenes that raise; nothing is
      digested. */
  lemma {:induction false} LoopLog(classes: seq<SceneClass>, backend: Backend)
    ensures Attempts(LoopTrace(classes, backend)) == Indices(|classes|)
    ensures Failures(LoopTrace(classes, backend)) == RaisingIndices(classes)
    ensures Digests(LoopTrace(classes, backend)) == []
  {
    if classes != [] {
      var n := |classes|;
      LoopLog(classes[..n - 1], backend);
      var t := SceneTrace(n - 1, classes[n - 1], backend);
      LogFiltersDistribute(LoopTrace(classes[..n - 1], backend), t);
      SceneTraceLog(n - 1, classes[n - 1], backend);
    }
  }

  /** `for SceneClass in scene_classes_from_file(file): try ... except: print` */
  method AttemptScenes(classes: seq<SceneClass>, backend: Backend) returns (trace: seq<Event>)
    ensures trace == LoopTrace(classes, backend)
    ensures Attempts(trace) == Indices(|classes|)
    ensures Failures(trace) == RaisingIndices(classes)
    ensures Digests(trace) == []
    ensures forall e :: e in trace ==> e.SceneAttempted? || e.ExceptionPrinted?
  {
    trace := [];
    for i := 0 to |classes|
      invariant trace == LoopTrace(classes[..i], backend)
      invariant forall e :: e in trace ==> e.SceneAttempted? || e.ExceptionPrinted?
    {
      assert classes[..i + 1][..i] == classes[..i];
      trace := trace + [SceneAttempted(i, backend)];
      if classes[i].renderRaises {
        trace := trace + [ExceptionPrinted(i)];
      }
    }
    assert classes[..|classes|] == classes;
    LoopLog(classes, backend);
  }

  // ---------------------------------------------------------------------------
  // The command

  /** The backend `config.renderer` selects after digesting. */
  function BackendFor(configRenderer: string): Backend
  {
    if configRenderer == "opengl" then OpenGL
    else if configRenderer == "webgl" then WebGL
    else Cairo
  }

  /** The scene classes the file yields; none when loading raises. */
  function ClassesOf(source: SceneSource): seq<SceneClass>
  {
    match source
    case Loaded(classes) => classes
    case LoadRaised => []
  }

  /** The backend renders scenes: it is not the frame server, the OpenGL
      renderer (when chosen) imports, and the scene classes load. */
  predicate RendersScenes(backend: Backend, source: SceneSource, openglImportable: bool)
  {
    (backend == Cairo || (backend == OpenGL && openglImportable)) && source.Loaded?
  }

  /** An exception escapes the backend: the OpenGL renderer cannot be
      imported, the scene classes fail to load, or the frame server fails
      other than by a missing module. */
  predicate RendererRaises(backend: Backend, source: SceneSource, openglImportable: bool, server: ServerOutcome)
  {
    (backend == OpenGL && !openglImportable) ||
    (backend != WebGL && source.LoadRaised?) ||
    (backend == WebGL && server == ServerRaised)
  }

  /** The log of the frame server run: the run, unless it fails by a missing
      module, in which case the dependency hint is printed instead. */
  function ServerTrace(server: ServerOutcome): seq<Event>
  {
    if server == DependencyMissing then [WebGLDependencyHint] else [FrameServerRun]
  }

  /** The log of the scene loop over what the file yields. */
  function SourceTrace(source: SceneSource, backend: Backend): seq<Event>
  {
    match source
    case Loaded(classes) => LoopTrace(classes, backend)
    case LoadRaised => []
  }

  /** The log of the backend `config.renderer` names. */
  function RendererTrace(backend: Backend, source: SceneSource, openglImportable: bool,
                         server: ServerOutcome): seq<Event>
  {
    match backend
    case OpenGL => if openglImportable then SourceTrace(source, OpenGL) else []
    case WebGL => ServerTrace(server)
    case Cairo => SourceTrace(source, Cairo)
  }

  lemma {:induction false} LoopTraceEvents(classes: seq<SceneClass>, backend: Backend)
    ensures forall e :: e in LoopTrace(classes, backend) ==> e.SceneAttempted? || e.ExceptionPrinted?
  {
    if classes != [] {
      LoopTraceEvents(classes[..|classes| - 1], backend);
    }
  }

  /** OpenGL and the default backend attempt every scene the file yields and
      never touch the frame server; WebGL attempts no scene and either runs
      the frame server or, when its module is missing, prints the dependency
      hint instead. */
  lemma RendererTraceLog(backend: Backend, source: SceneSource, openglImportable: bool, server: ServerOutcome)
    ensures Digests(RendererTrace(backend, source, openglImportable, server)) == []
    ensures ScenesLogged(RendererTrace(backend, source, openglImportable, server), ClassesOf(source),
                         RendersScenes(backend, source, openglImportable))
    ensures backend == WebGL ==>
              (FrameServerRun in RendererTrace(backend, source, openglImportable, server) <==>
               server != DependencyMissing) &&
              (WebGLDependencyHint in RendererTrace(backend, source, openglImportable, server) <==>
               server == DependencyMissing)
    ensures backend != WebGL ==>
              FrameServerRun !in RendererTrace(backend, source, openglImportable, server) &&
              WebGLDependencyHint !in RendererTrace(backend, source, openglImportable, server)
  {
    var trace := RendererTrace(backend, source, openglImportable, server);
    if backend == WebGL {
      QuietOfPlainEvents(trace);
    } else if RendersScenes(backend, source, openglImportable) {
      LoopLog(source.classes, backend);
      LoopTraceEvents(source.classes, backend);
    }
  }

  /** The backend `config.renderer` names: OpenGL and the default backend
      attempt every scene the file yields; WebGL runs only the frame server,
      printing a hint when its module is missing. `raised` tells whether an
      exception escapes. */
  method RunRenderer(backend: Backend, source: SceneSource, openglImportable: bool, server: ServerOutcome)
    returns (raised: bool, trace: seq<Event>)
    ensures trace == RendererTrace(backend, source, openglImportable, server)
    ensures raised == RendererRaises(backend, source, openglImportable, server)
  {
    if backend == WebGL {
      if server == DependencyMissing {
        trace := [WebGLDependencyHint];
      } else {
        trace := [FrameServerRun];
      }
      raised := server == ServerRaised;
      return;
    }
    if backend == OpenGL && !openglImportable {
      raised, trace := true, [];
      return;
    }
    match source
    case LoadRaised =>
      raised, trace := true, [];
    case Loaded(classes) =>
      trace := AttemptScenes(classes, backend);
      raised := false;
  }

  predicate LegacySyntax(params: RenderParams)
  {
    exists i :: 0 <= i < |params.scenes| && StartsWithDash(params.scenes[i])
  }

  predicate UsesOpengl(params: RenderParams) { Truthy(params.useOpenglRenderer) }

  predicate UsesWebgl(params: RenderParams) { Truthy(params.useWebglRenderer) }

  /** The run gets past the argument checks and the Jupyter return. */
  predicate ReachesDigest(params: RenderParams)
  {
    !LegacySyntax(params) && !(UsesOpengl(params) && UsesWebgl(params)) && !Truthy(params.jupyter)
  }

  /** What digesting the `args` built from the parameters does. */
  function DigestOf(params: RenderParams, digest: map<ArgKey, Val> -> Digested): Digested
  {
    digest(BuildArgs(params))
  }

  /** The run digests `args` without an exception and `config.renderer`
      then names `backend`. */
  predicate Selects(params: RenderParams, digest: map<ArgKey, Val> -> Digested, backend: Backend)
  {
    ReachesDigest(params) && DigestOf(params, digest).Digested? &&
    BackendFor(DigestOf(params, digest).renderer) == backend
  }

  /** The log after `config.digest_args` was called: nothing when it raised,
      otherwise the log of the backend `config.renderer` names. */
  function DigestedTrace(digested: Digested, source: SceneSource, openglImportable: bool,
                         server: ServerOutcome): seq<Event>
  {
    match digested
    case DigestRaised => []
    case Digested(renderer) => RendererTrace(BackendFor(renderer), source, openglImportable, server)
  }

  lemma DigestedTraceLog(digested: Digested, source: SceneSource, openglImportable: bool, server: ServerOutcome)
    ensures Digests(DigestedTrace(digested, source, openglImportable, server)) == []
    ensures ScenesLogged(DigestedTrace(digested, source, openglImportable, server), ClassesOf(source),
                         digested.Digested? && RendersScenes(BackendFor(digested.renderer), source, openglImportable))
  {
    if digested.Digested? {
      RendererTraceLog(BackendFor(digested.renderer), source, openglImportable, server);
    }
  }

  /** The log once the `ClickArgs` object exists: nothing under Jupyter,
      otherwise the digest of `args` followed by what comes after it. */
  function ClickArgsTrace(args: map<ArgKey, Val>, jupyter: bool, digested: Digested, source: SceneSource,
                          openglImportable: bool, server: ServerOutcome): seq<Event>
  {
    if jupyter then [] else [ArgsDigested(args)] + DigestedTrace(digested, source, openglImportable, server)
  }

  lemma ClickArgsTraceLog(args: map<ArgKey, Val>, jupyter: bool, digested: Digested, source: SceneSource,
                          openglImportable: bool, server: ServerOutcome)
    ensures Digests(ClickArgsTrace(args, jupyter, digested, source, openglImportable, server)) ==
              if jupyter then [] else [args]
    ensures ScenesLogged(ClickArgsTrace(args, jupyter, digested, source, openglImportable, server),
                         ClassesOf(source),
                         !jupyter && digested.Digested? &&
                         RendersScenes(BackendFor(digested.renderer), source, openglImportable))
  {
    if !jupyter {
      var rest := DigestedTrace(digested, source, openglImportable, server);
      DigestEventLog(args);
      DigestedTraceLog(digested, source, openglImportable, server);
      LogFiltersDistribute([ArgsDigested(args)], rest);
    }
  }

  lemma DigestEventLog(args: map<ArgKey, Val>)
    ensures Attempts([ArgsDigested(args)]) == [] && Failures([ArgsDigested(args)]) == []
    ensures Digests([ArgsDigested(args)]) == [args]
  {
    assert [ArgsDigested(args)][..0] == [];
  }

  /** How the call ends once the `ClickArgs` object exists. */
  function ClickArgsOutcome(args: map<ArgKey, Val>, jupyter: bool, digested: Digested, source: SceneSource,
                            openglImportable: bool, server: ServerOutcome): Outcome
  {
    if jupyter then ReturnedClickArgs(args)
    else if digested.DigestRaised? then Raised
    else if RendererRaises(BackendFor(digested.renderer), source, openglImportable, server) then Raised
    else ReturnedArgs(args)
  }

  /** The part of `render` after the argument checks: wrap `args` in an
      instance of this call's `ClickArgs` class (`call`), hand it back under
      Jupyter, otherwise digest it and run the backend `config.renderer`
      names. */
  method RunClickArgs(call: nat, args: map<ArgKey, Val>, jupyter: bool, digest: map<ArgKey, Val> -> Digested,
                      source: SceneSource, openglImportable: bool, server: ServerOutcome)
    returns (outcome: Outcome, events: seq<Event>)
    ensures events == ClickArgsTrace(args, jupyter, digest(args), source, openglImportable, server)
    ensures outcome == ClickArgsOutcome(args, jupyter, digest(args), source, openglImportable, server)
  {
    var clickArgs := new ClickArgs(call, args);
    if jupyter {
      outcome, events := ReturnedClickArgs(clickArgs.attrs), [];
      return;
    }
    events := [ArgsDigested(clickArgs.attrs)];
    match digest(clickArgs.attrs)
    case DigestRaised =>
      outcome := Raised;
    case Digested(renderer) =>
      var raised, trace := RunRenderer(BackendFor(renderer), source, openglImportable, server);
      events := events + trace;
      outcome := if raised then Raised else ReturnedArgs(args);
  }

  /** The log after the deprecation warnings: the conflict message when both
      deprecated flags are set, otherwise the log of the `ClickArgs` part. */
  function ChecksTrace(params: RenderParams, digest: map<ArgKey, Val> -> Digested,
                       source: SceneSource, openglImportable: bool, server: ServerOutcome): seq<Event>
  {
    if UsesOpengl(params) && UsesWebgl(params) then [OneRendererOnly]
    else ClickArgsTrace(BuildArgs(params), Truthy(params.jupyter), DigestOf(params, digest),
                        source, openglImportable, server)
  }

  lemma ChecksTraceLog(params: RenderParams, digest: map<ArgKey, Val> -> Digested,
                       source: SceneSource, openglImportable: bool, server: ServerOutcome)
    requires !LegacySyntax(params)
    ensures Digests(ChecksTrace(params, digest, source, openglImportable, server)) ==
              if ReachesDigest(params) then [BuildArgs(params)] else []
    ensures ScenesLogged(ChecksTrace(params, digest, source, openglImportable, server), ClassesOf(source),
                         ReachesDigest(params) && DigestOf(params, digest).Digested? &&
                         RendersScenes(BackendFor(DigestOf(params, digest).renderer), source, openglImportable))
  {
    if UsesOpengl(params) && UsesWebgl(params) {
      QuietOfPlainEvents([OneRendererOnly]);
    } else {
      ClickArgsTraceLog(BuildArgs(params), Truthy(params.jupyter), DigestOf(params, digest),
                        source, openglImportable, server);
    }
  }

  /** The log of a `render` call. */
  function RenderTrace(params: RenderParams, digest: map<ArgKey, Val> -> Digested,
                       source: SceneSource, openglImportable: bool, server: ServerOutcome): seq<Event>
  {
    if LegacySyntax(params) then [LegacySyntaxWarning]
    else
      DeprecationWarnings(UsesOpengl(params), UsesWebgl(params)) +
      ChecksTrace(params, digest, source, openglImportable, server)
  }

  /** How a `render` call ends. */
  function RenderOutcome(params: RenderParams, digest: map<ArgKey, Val> -> Digested,
                         source: SceneSource, openglImportable: bool, server: ServerOutcome): Outcome
  {
    if LegacySyntax(params) || (UsesOpengl(params) && UsesWebgl(params)) then Exited
    else ClickArgsOutcome(BuildArgs(params), Truthy(params.jupyter), DigestOf(params, digest),
                          source, openglImportable, server)
  }

  /** `render`. `call` numbers the call, whose `ClickArgs` class is its own;
      `digest` is what `config.digest_args` does with the given arguments;
      `source` is what `scene_classes_from_file(file)` does;
      `openglImportable` says whether importing the OpenGL renderer succeeds;
      `server` is how the frame server run ends. */
  method Render(call: nat, params: RenderParams, digest: map<ArgKey, Val> -> Digested,
                source: SceneSource, openglImportable: bool, server: ServerOutcome)
    returns (outcome: Outcome, events: seq<Event>)
    ensures events == RenderTrace(params, digest, source, openglImportable, server)
    ensures outcome == RenderOutcome(params, digest, source, openglImportable, server)
  {
    var legacy := FindLegacySyntax(params.scenes);
    if legacy {
      outcome, events := Exited, [LegacySyntaxWarning];
      return;
    }
    var renderer, warnings, conflict :=
      ResolveDeprecatedRenderer(params.renderer, UsesOpengl(params), UsesWebgl(params));
    events := warnings;
    if conflict {
      outcome := Exited;
      return;
    }
    var rest;
    outcome, rest := RunClickArgs(call, BuildArgs(params), Truthy(params.jupyter), digest, source,
                                  openglImportable, server);
    events := events + rest;
  }

  // ---------------------------------------------------------------------------
  // What a `render` call promises

  /** The legacy argument order and the two deprecated flags together are the
      only ways to exit, and both exit before anything is digested. */
  lemma RenderExits(params: RenderParams, digest: map<ArgKey, Val> -> Digested,
                    source: SceneSource, openglImportable: bool, server: ServerOutcome)
    ensures RenderOutcome(params, digest, source, openglImportable, server) == Exited <==>
              LegacySyntax(params) || (UsesOpengl(params) && UsesWebgl(params))
    ensures LegacySyntax(params) ==> RenderTrace(params, digest, source, openglImportable, server) == [LegacySyntaxWarning]
    ensures !LegacySyntax(params) && UsesOpengl(params) && UsesWebgl(params) ==>
              RenderTrace(params, digest, source, openglImportable, server) ==
              [OpenGLFlagDeprecated, WebGLFlagDeprecated, OneRendererOnly]
  {
  }

  /** `args` is digested exactly once when the run gets past the checks and
      the Jupyter return, and never otherwise. */
  lemma RenderDigestsOnce(params: RenderParams, digest: map<ArgKey, Val> -> Digested,
                          source: SceneSource, openglImportable: bool, server: ServerOutcome)
    ensures Digests(RenderTrace(params, digest, source, openglImportable, server)) ==
              if ReachesDigest(params) then [BuildArgs(params)] else []
  {
    if LegacySyntax(params) {
      QuietOfPlainEvents([LegacySyntaxWarning]);
    } else {
      var warnings := DeprecationWarnings(UsesOpengl(params), UsesWebgl(params));
      QuietOfPlainEvents(warnings);
      ChecksTraceLog(params, digest, source, openglImportable, server);
      LogFiltersDistribute(warnings, ChecksTrace(params, digest, source, openglImportable, server));
    }
  }

  /** Scenes are attempted, every one the file yields and in order, exactly
      when `args` was digested without an exception and the backend renders
      scenes; an exception is printed for exactly the scenes that raise. A
      digest or a load that raises attempts no scene. */
  lemma RenderAttemptsScenes(params: RenderParams, digest: map<ArgKey, Val> -> Digested,
                             source: SceneSource, openglImportable: bool, server: ServerOutcome)
    ensures ScenesLogged(RenderTrace(params, digest, source, openglImportable, server), ClassesOf(source),
                         ReachesDigest(params) && DigestOf(params, digest).Digested? &&
                         RendersScenes(BackendFor(DigestOf(params, digest).renderer), source, openglImportable))
  {
    if LegacySyntax(params) {
      QuietOfPlainEvents([LegacySyntaxWarning]);
    } else {
      var warnings := DeprecationWarnings(UsesOpengl(params), UsesWebgl(params));
      QuietOfPlainEvents(warnings);
      ChecksTraceLog(params, digest, source, openglImportable, server);
      LogFiltersDistribute(warnings, ChecksTrace(params, digest, source, openglImportable, server));
    }
  }

  /** Under Jupyter the `ClickArgs` object comes back with one attribute per
      key of `args`; a normal return hands back `args` itself, whose renderer
      is the raw `--renderer` value, never the one the deprecated flags
      resolve to; an exception escapes exactly when digesting raises or the
      backend does. */
  lemma RenderReturns(params: RenderParams, digest: map<ArgKey, Val> -> Digested,
                      source: SceneSource, openglImportable: bool, server: ServerOutcome)
    ensures RenderOutcome(params, digest, source, openglImportable, server).ReturnedClickArgs? <==>
              !LegacySyntax(params) && !(UsesOpengl(params) && UsesWebgl(params)) && Truthy(params.jupyter)
    ensures RenderOutcome(params, digest, source, openglImportable, server).ReturnedClickArgs? ==>
              forall key :: key in RenderOutcome(params, digest, source, openglImportable, server).attrs &&
                            RenderOutcome(params, digest, source, openglImportable, server).attrs[key] ==
                            Param(params, key)
    ensures RenderOutcome(params, digest, source, openglImportable, server).ReturnedArgs? ==>
              ReachesDigest(params) &&
              Renderer in RenderOutcome(params, digest, source, openglImportable, server).args &&
              RenderOutcome(params, digest, source, openglImportable, server).args[Renderer] == params.renderer
    ensures RenderOutcome(params, digest, source, openglImportable, server) == Raised <==>
              ReachesDigest(params) &&
              (DigestOf(params, digest).DigestRaised? ||
               RendererRaises(BackendFor(DigestOf(params, digest).renderer), source, openglImportable, server))
  {
    ArgsRenamedEntries(params);
    forall key | true
      ensures key in BuildArgs(params) && BuildArgs(params)[key] == Param(params, key)
    {
      ArgsEntry(params, key);
    }
  }

  /** With the WebGL backend only the frame server runs, and the dependency
      hint is printed in its place exactly when its module is missing; no
      other backend touches the frame server. */
  lemma RenderFrameServer(params: RenderParams, digest: map<ArgKey, Val> -> Digested,
                          source: SceneSource, openglImportable: bool, server: ServerOutcome)
    ensures Selects(params, digest, WebGL) ==>
              (FrameServerRun in RenderTrace(params, digest, source, openglImportable, server) <==>
               server != DependencyMissing) &&
              (WebGLDependencyHint in RenderTrace(params, digest, source, openglImportable, server) <==>
               server == DependencyMissing)
    ensures !Selects(params, digest, WebGL) ==>
              FrameServerRun !in RenderTrace(params, digest, source, openglImportable, server) &&
              WebGLDependencyHint !in RenderTrace(params, digest, source, openglImportable, server)
  {
    if ReachesDigest(params) && DigestOf(params, digest).Digested? {
      RendererTraceLog(BackendFor(DigestOf(params, digest).renderer), source, openglImportable, server);
    }
  }
}
