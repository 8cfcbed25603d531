# manim command line: a verified model

This project models the decision logic of manim's command-line layer.

- **Option validators.** The `-n` and `-r` option validators, and the three choice options (format, quality, renderer).
- **The `render` command.**
  - It refuses the old argument order.
  - It collects its 31 parameters into the `args` mapping.
  - It resolves the deprecated `--use_opengl_renderer` and `--use_webgl_renderer` flags.
  - It wraps `args` in a `ClickArgs` attribute bag and hands that back under Jupyter.
  - Otherwise it lets the configuration digest the arguments and runs the backend `config.renderer` names. The OpenGL and default backends attempt every scene in turn and print each failure; WebGL runs the frame server.
- **The `manim` entry point.**
  - `main` routes to the `cfg` and `plugins` handlers or to rendering.
  - Its scene loop renders each scene and opens its files.
  - `open_file_if_needed` silences standard output by binding it to a fresh null-device file. It then asks the operating system to reveal and/or preview each produced file, in a fixed order, and restores standard output.

The Dafny modules follow the program's layout:

| file | module | models |
|---|---|---|
| `Base.dfy` | `PyValues` | Python values as the layer passes them around, and their truthiness |
| `Collaborators.dfy` | `Collaborators` | scene classes, file writers, the scene loader, the configuration digest and the frame server, reduced to whether each call raises and what it leaves behind |
| `RenderOptions.dfy` | `RenderOptions` | `int()`, `re.split(";\|,\|-", …)`, `validate_scene_range`, `validate_resolution`, the choice options |
| `RenderArgs.dfy` | `RenderArgs` | the parameters of `render` and the `args` mapping built from them |
| `RenderCommand.dfy` | `RenderCommand` | `render`, the `ClickArgs` class, the backend branch and the scene loops |
| `EntryPoint.dfy` | `EntryPoint` | `open_file_if_needed`, the routing of `main` and its render path, as a `Process` class holding standard output and a log of calls |

## How the model is built

**Code made of expressions is written as functions.** This covers the validators, the routing table, the choice of files and the planned calls. Their properties are proved as lemmas.

**Code that loops or updates state is written as methods.** Each method is proved equal to a specification function:
- the legacy-syntax scan, `FindLegacySyntax`;
- the renderer reassignments, `ResolveDeprecatedRenderer`;
- the `setattr` loop of `ClickArgs`;
- the scene loops, `AttemptScenes`, `RunScene` and `RunScenes`;
- the loop over file paths, `OpenEach`;
- the standard-output swap, `Process.OpenFileIfNeeded`.

**What the commands do is an ordered log of observable events.** Filters over the log state the promises: which scenes were attempted, which exceptions were printed, what was digested, and which files were opened.

**Collaborators are parameters.** These are calls into code that is not part of this model:
- `digest` stands for `config.digest_args` followed by reading `config.renderer`: it either leaves a renderer name behind or raises;
- `source` is what `scene_classes_from_file` does: it either yields the scene classes or raises;
- `call` numbers the `render` call, because every call defines a `ClickArgs` class of its own;
- `openglImportable` says whether importing the OpenGL renderer succeeds;
- `server` is how the frame server run ends;
- `digestRaises` and `cfg` in `EntryPoint` say whether digesting raises and, if not, the configuration it leaves behind;
- each scene carries whether building or rendering it raises an `Exception`, its file writer's paths, and which `open_media_file` call made for it raises an `Exception`.

**Three behaviours of the code worth knowing:**
- A single integer given to `-n` yields the one-element tuple `(start,)` (`From(start)`), not `(start, None)`.
- `open_file_if_needed` has no `try`/`finally`. When an `open_media_file` call raises, standard output stays bound to the null file, which is never closed. It is not restored (`Process.OpenFileIfNeeded`, `Process.RunScenes`).
- Only the WebGL branches catch a missing dependency (`ModuleNotFoundError`). A failing import of the OpenGL renderer escapes `render` (`Raised`).

**The command's own `TODO: renderer is never used` is modelled as written.** `args` is built before the deprecated flags are looked at, so the returned `args` keeps the raw `--renderer` value (`RenderReturns`).

## Model

| member | source | states |
|---|---|---|
| RenderOptions.ParseInt | manim/cli/render/render_options.py:11 | `int()` succeeds exactly on an optional sign followed by one or more ASCII digits; without a leading `-` the value is non-negative |
| RenderOptions.ParseIntOfIntToString | manim/cli/render/render_options.py:11 | reading back the decimal text of any integer, negative ones included, gives that integer |
| RenderOptions.Split | manim/cli/render/render_options.py:18 | splitting at every `;`, `,` or `-` gives one more piece than there are separators, and no piece contains a separator |
| RenderOptions.SplitJoin | manim/cli/render/render_options.py:18 | joining the pieces back with the separators found restores the input, so the split loses nothing |
| RenderOptions.ParsePair | manim/cli/render/render_options.py:18 | `map(int, …)` into two names succeeds exactly when there are two pieces and both are integers; both values are then non-negative, because `-` always splits |
| RenderOptions.PairShape | manim/cli/render/render_options.py:18 | an accepted pair is two separator-free integers around exactly one separator |
| RenderOptions.PairRoundTrip | manim/cli/render/render_options.py:18 | `str(a) + sep + str(b)` reads back as `(a, b)` for naturals `a`, `b` and each of the three separators |
| RenderOptions.ValidateSceneRange | manim/cli/render/render_options.py:9-22 | `-n` gives no value exactly for an absent or empty string; a single integer, negative ones included, gives `(n,)`; any pair it accepts is non-negative |
| RenderOptions.SceneRangeSingleRoundTrip | manim/cli/render/render_options.py:10-12 | the text of any integer `n`, e.g. `"-3"`, is read by `-n` as the one-element tuple `(n,)` |
| RenderOptions.SceneRangePairRoundTrip | manim/cli/render/render_options.py:16-19 | `str(a) + sep + str(b)` is read by `-n` as `(a, b)` |
| RenderOptions.ValidateResolution | manim/cli/render/render_options.py:25-35 | `-r` gives no value exactly for an absent or empty string; any resolution it accepts has non-negative width and height |
| RenderOptions.ResolutionRoundTrip | manim/cli/render/render_options.py:26-32 | `str(a) + sep + str(b)` is read by `-r` as the resolution `(a, b)` |
| RenderOptions.ResolutionRejectsSingleInteger | manim/cli/render/render_options.py:25-35 | `-r` has no single-integer form: every integer literal, e.g. `"1920"` or `"-3"`, exits |
| RenderOptions.SceneRangeAgreesWithResolution | manim/cli/render/render_options.py:16-35 | apart from single integers, `-n` and `-r` accept and reject the same strings and read the same pair |
| RenderOptions.ThreePiecesRejected | manim/cli/render/render_options.py:17-22 | a value with two or more separators that is not a single integer exits, for both options |
| RenderOptions.ThreeNumbersRejected | manim/cli/render/render_options.py:20-22 | `"1-2-3"` exits |
| RenderOptions.TrailingSeparatorRejected | manim/cli/render/render_options.py:20-22 | `"5-"` exits |
| RenderOptions.DoubledSeparatorRejected | manim/cli/render/render_options.py:20-22 | `"1,,2"` exits |
| RenderOptions.NonNumericPairRejected | manim/cli/render/render_options.py:20-22 | `"a,b"` exits |
| RenderOptions.MatchChoice | manim/cli/render/render_options.py:58 | a case-insensitive choice yields a listed choice equal to the input up to case, or reports that none matches |
| RenderOptions.ValidateChoice | manim/cli/render/render_options.py:53-59 | a choice option yields a listed choice (or its default when absent), and it exits exactly when a given value matches no choice in any case |
| RenderOptions.ValidateFormat | manim/cli/render/render_options.py:53-59 | the format is `png`, `gif` or `mp4`, and `mp4` when absent |
| RenderOptions.ValidateQuality | manim/cli/render/render_options.py:61-74 | the quality is one of `l`, `m`, `h`, `p`, `k`, and `h` when absent |
| RenderOptions.ValidateRenderer | manim/cli/render/render_options.py:88-92 | the renderer is `cairo`, `opengl` or `webgl`, and there is no value exactly when it is absent |
| RenderOptions.ChoicesIgnoreCase | manim/cli/render/render_options.py:53-92 | upper-case spellings such as `PNG`, `L`, `OpenGL` map to the lower-case choice |
| RenderArgs.ArgsSourceEntries | manim/cli/render/commands.py:99-106 | `ctx`, `file`, `config_file`, `custom_folders`, `disable_caching`, `flush_cache` and `tex_template` each hold the parameter of the same name |
| RenderArgs.ArgsOutputEntries | manim/cli/render/commands.py:109-116 | `write_to_movie`, `media_dir`, `log_dir`, `log_to_file`, `from_animation_number`, `write_all` and `save_last_frame` each hold the parameter of the same name |
| RenderArgs.ArgsQualityEntries | manim/cli/render/commands.py:117-123 | `quality`, `resolution`, `frame_rate`, `use_opengl_renderer`, `use_webgl_renderer` and `webgl_renderer_path` each hold the parameter of the same name |
| RenderArgs.ArgsViewerEntries | manim/cli/render/commands.py:124-129 | `transparent`, `background_color`, `progress_bar`, `preview`, `show_in_file_browser` and `jupyter` each hold the parameter of the same name |
| RenderArgs.ArgsRenamedEntries | manim/cli/render/commands.py:101-120 | `scene_names`, `verbosity`, `output_file` and `format` hold `scenes`, `verbose`, `output` and `file_format`; `renderer` holds the raw `--renderer` value |
| RenderCommand.FindLegacySyntax | manim/cli/render/commands.py:74-94 | the scan finds a scene token starting with `-` exactly when one exists |
| RenderCommand.ResolveDeprecatedRenderer | manim/cli/render/commands.py:132-145 | the command exits exactly when both flags are set; either flag alone makes the local renderer `opengl` or `webgl`, and neither leaves it unchanged; the deprecation warnings come in flag order, and the conflict warning is added exactly on exit |
| RenderCommand.ClickArgs.SetAttr | manim/cli/render/commands.py:150 | `setattr` binds one attribute and leaves the others unchanged |
| RenderCommand.ClickArgs.constructor | manim/cli/render/commands.py:147-150 | after the `setattr` loop there is one attribute per key of `args`, holding that key's value, and the instance belongs to the class of the call that made it |
| RenderCommand.ClickArgs.Contains | manim/cli/render/commands.py:160-161 | `key in click_args` holds exactly when some `(key, value)` pair is among the attributes |
| RenderCommand.ClickArgs.Kwargs | manim/cli/render/commands.py:152-153 | `_get_kwargs` lists exactly the attributes, with their values |
| RenderCommand.ClickArgs.Equals | manim/cli/render/commands.py:147-158 | two instances are equal exactly when they come from the same call's class and list the same name/value pairs; across calls `isinstance` fails both ways and identity decides, which two distinct objects never share |
| RenderCommand.KwargsDetermineAttrs | manim/cli/render/commands.py:152-158 | two instances list the same name/value pairs exactly when `vars()` of both are equal |
| RenderCommand.AttemptScenes | manim/cli/render/commands.py:195-200 | the scene loop attempts every scene, in order, prints the exception of exactly the scenes that raise, and digests nothing |
| RenderCommand.LoopLog | manim/cli/render/commands.py:174-180 | in the loop's log, the attempts are 0, 1, …, n-1 whatever the other scenes did, and the printed exceptions are exactly the raising scenes |
| RenderCommand.RaisingIndicesMembers | manim/cli/render/commands.py:179-180 | an exception is printed for scene `i` exactly when `i` is a scene that raises |
| RenderCommand.RendererTraceLog | manim/cli/render/commands.py:171-200 | OpenGL, when importable, and the default backend attempt every scene the file yields (none when loading raises) and never touch the frame server; WebGL attempts no scene and logs a frame server run exactly when the branch does not end in a missing module, and the hint exactly when it does |
| RenderCommand.RunRenderer | manim/cli/render/commands.py:171-200 | the backend dispatch produces the backend's log, and raises exactly when the OpenGL renderer cannot be imported, the scene classes fail to load for OpenGL or the default backend, or the frame server fails other than by a missing module |
| RenderCommand.ClickArgsTraceLog | manim/cli/render/commands.py:166-201 | under Jupyter nothing is digested or rendered; otherwise `args` is digested once, and scenes are attempted exactly when digesting did not raise and the backend renders scenes |
| RenderCommand.RunClickArgs | manim/cli/render/commands.py:166-201 | the Jupyter return hands back the attribute bag before any digest; otherwise a digest that raises ends the call with nothing after it, and a digest that succeeds is followed by the backend's log; the call returns `args` unless digesting or the backend raised |
| RenderCommand.Render | manim/cli/render/commands.py:35-201 | a `render` call produces exactly the specified log and ends in exactly the specified way, for every parameter set and collaborator behaviour |
| RenderCommand.RenderExits | manim/cli/render/commands.py:74-145 | `render` exits exactly on the legacy argument order or on both deprecated flags, and in both cases only warnings are logged |
| RenderCommand.RenderDigestsOnce | manim/cli/render/commands.py:166-169 | `args` is digested exactly once when the call passes the checks and is not under Jupyter, and never otherwise |
| RenderCommand.RenderAttemptsScenes | manim/cli/render/commands.py:171-200 | scenes are attempted, every one the file yields and in order, exactly when `args` was digested without an exception, the scene classes loaded and the backend renders scenes; exceptions are printed for exactly the raising scenes |
| RenderCommand.RenderReturns | manim/cli/render/commands.py:132-201 | the `ClickArgs` return happens exactly under Jupyter past the checks, with every parameter as an attribute; a normal return hands back `args` with the raw renderer; an exception escapes exactly when digesting raises or the backend does |
| RenderCommand.RenderFrameServer | manim/cli/render/commands.py:181-193 | once digesting succeeded with the WebGL renderer, a frame server run is logged exactly when the branch does not end in a missing module, and the hint exactly when it does; otherwise neither happens |
| EntryPoint.SelectedArtifacts | manim/__main__.py:33-40 | the image is selected iff `save_last_frame`, the movie iff `write_to_movie and not save_as_gif`, the GIF iff `save_as_gif`; movie and GIF never both; image before movie before GIF |
| EntryPoint.PathsOfFiles | manim/__main__.py:33-40 | mapping files to their paths keeps their number and order |
| EntryPoint.SelectedPathsOfArtifacts | manim/__main__.py:33-40 | `file_paths` holds the selected files' paths, in the same order, and holds the image, movie and GIF paths under their flags |
| EntryPoint.FilePaths | manim/__main__.py:33-40 | the appends build exactly the selected paths |
| EntryPoint.PlannedOpensCount | manim/__main__.py:30-46 | there are (number of paths) × (number of flags set) calls, and none when neither `preview` nor `show_in_file_browser` is set |
| EntryPoint.PlannedOpensOrder | manim/__main__.py:42-46 | each path's calls sit between those of the paths before and after it, and within them the reveal comes before the preview |
| EntryPoint.OpenEach | manim/__main__.py:42-46 | the path loop makes the planned calls in order, stops right after the call that raises, and reports whether one raised |
| EntryPoint.Process.OpenFileIfNeeded | manim/__main__.py:25-50 | with DEBUG verbosity standard output is untouched; otherwise a fresh null file is bound and, when no call raised, closed and the old stream restored; when a call raised, the null file stays bound and open; the log gains exactly the calls made |
| EntryPoint.RouteOf | manim/__main__.py:56-81 | each `cfg` subcommand reaches exactly its handler with the namespace's arguments; `cfg` without a subcommand, `plugins` with and without `--list`, another command, and no command each take exactly one route |
| EntryPoint.Process.RunScene | manim/__main__.py:103-110 | one pass logs the attempt, opens the files only if the scene rendered, and prints an exception exactly when rendering or opening raised |
| EntryPoint.Process.RunScenes | manim/__main__.py:102-110 | the loop's log is every scene's log in order; standard output is back to what it was unless an open raised without DEBUG, in which case it stays bound to a null file that is never closed |
| EntryPoint.MainLoopFilters | manim/__main__.py:102-110 | every scene is attempted in order; an exception is printed for exactly the scenes whose rendering or file opening raised; files are opened only for scenes whose `render()` returned |
| EntryPoint.FailingIndicesMembers | manim/__main__.py:103-110 | scene `i` has its exception printed exactly when it raised inside the `try` |
| EntryPoint.Process.Run | manim/__main__.py:53-110 | `main` takes the route of its namespace; non-render routes do nothing here; a digest that raises escapes before anything runs; WebGL runs only the frame server, which escapes only when it fails other than by a missing module; otherwise a loader that raises escapes before any scene, and else the scene loop runs |

## Left out

- click and cloup are not modelled: option declaration, `Choice` parsing machinery, help text, `CliRunner` and the `__main__` self-test block. The choice options are modelled only by their accepted values, ASCII case handling and defaults.
- `tests/test_commands.py` is not part of this model. It checks click's usage text only.
- `manim/cli/plugins/commands.py` is not part of this model. It is a pass-through to `list_plugins`.
- The `cfg` and `plugins` handlers are modelled only by the route `main` takes to them, with its arguments.
- Logging, console output, the warning and error texts and the debug `print` calls of `main` are not modelled. Each becomes an event or is dropped.
- `int()` accepts only an optional sign and ASCII digits here. Surrounding whitespace, `_` digit separators and non-ASCII digits are not modelled.
- The frame rate (`--fps`, a float) is not modelled. Neither are the context object or paths, which are opaque values.
- `config.digest_args`, `scene_classes_from_file`, scene rendering, `open_media_file`, the OpenGL renderer and the frame server are external. Each is a parameter that says whether the call raises and, when it does not, what it leaves behind. The frame server's blocking network I/O is not modelled.
- RenderCommand.RunRenderer: `scene_classes_from_file` either yields all its classes or raises before the first; a loader that raises after yielding some classes is not modelled, because its code is not part of this model.
- EntryPoint.Process.Run: the same holds for the loader in `main`'s scene loop.
- RenderOptions.MatchChoice: case folding covers ASCII letters only; click's `casefold()` also folds characters such as U+212A KELVIN SIGN to `k`, which the model does not.
- RenderOptions.ValidateChoice: inherits the ASCII-only case folding of `MatchChoice`, so a non-ASCII spelling that click would accept is rejected here.
- RenderCommand.AttemptScenes: only `Exception`s raised by a scene are modelled, which the loop catches (manim/cli/render/commands.py:179 and 199). A `BaseException` that is not an `Exception`, such as `KeyboardInterrupt` or a `SystemExit` from scene code, ends the loop and escapes `render`, with no later scene attempted.
- RenderCommand.LoopLog: "every scene is attempted whatever the others did" holds for scenes that raise `Exception`s only, as for `AttemptScenes`.
- RenderCommand.RenderAttemptsScenes: the same restriction to `Exception`s applies.
- RenderCommand.Render: "every collaborator behaviour" covers scenes that succeed or raise an `Exception`; a scene raising another `BaseException` is not modelled.
- EntryPoint.Process.RunScenes: only `Exception`s from building, rendering or opening a scene's files are modelled, which `main`'s loop catches (manim/__main__.py:107). A `BaseException` that is not an `Exception` ends the loop and escapes `main`, and if it came from `open_media_file`, standard output stays bound to the null file.
- EntryPoint.MainLoopFilters: the same restriction to `Exception`s applies.
- Insertion order of the `args` dictionary and of `ClickArgs` attributes is not modelled (a map and a set of pairs).
- A namespace whose `cmd` attribute exists but is `None` is modelled like a namespace without `cmd`.
- EntryPoint.Process.Run: does not model what the `cfg` and `plugins` handlers themselves do, because their code is not part of this model.
