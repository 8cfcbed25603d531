/** The keyword parameters of the `render` command and the `args` dictionary
    the command builds from them. */
module RenderArgs {
  import opened PyValues

  /** The keyword arguments click passes to `render`, one field per
      parameter, in declaration order. `scenes` is the variadic tuple of
      scene names. */
  datatype RenderParams = RenderParams(
    ctx: Val,
    file: Val,
    scenes: seq<string>,
    configFile: Val,
    customFolders: Val,
    disableCaching: Val,
    flushCache: Val,
    texTemplate: Val,
    verbose: Val,
    output: Val,
    writeToMovie: Val,
    mediaDir: Val,
    logDir: Val,
    logToFile: Val,
    fromAnimationNumber: Val,
    writeAll: Val,
    fileFormat: Val,
    saveLastFrame: Val,
    quality: Val,
    resolution: Val,
    frameRate: Val,
    renderer: Val,
    useOpenglRenderer: Val,
    useWebglRenderer: Val,
    webglRendererPath: Val,
    transparent: Val,
    backgroundColor: Val,
    progressBar: Val,
    preview: Val,
    showInFileBrowser: Val,
    jupyter: Val)

  /** The keys of the `args` dictionary, in its order. Each constructor is
      the dictionary's string key written in camel case: `SceneNames` is
      `"scene_names"`, `Verbosity` is `"verbosity"`, `Format` is `"format"`. */
  datatype ArgKey =
    | Ctx | File | SceneNames | ConfigFile | CustomFolders | DisableCaching
    | FlushCache | TexTemplate | Verbosity | OutputFile | WriteToMovie
    | MediaDir | LogDir | LogToFile | FromAnimationNumber | WriteAll
    | Format | SaveLastFrame | Quality | Resolution | FrameRate
    | Renderer | UseOpenglRenderer | UseWebglRenderer | WebglRendererPath
    | Transparent | BackgroundColor | ProgressBar | Preview
    | ShowInFileBrowser | Jupyter

  /** The parameter each key of `args` is filled from: the parameter of the
      same name, except that `scene_names`, `verbosity`, `output_file` and
      `format` take `scenes`, `verbose`, `output` and `file_format`. */
  function Param(params: RenderParams, key: ArgKey): Val
  {
    match key
    case Ctx => params.ctx
    case File => params.file
    case SceneNames => Texts(params.scenes)
    case ConfigFile => params.configFile
    case CustomFolders => params.customFolders
    case DisableCaching => params.disableCaching
    case FlushCache => params.flushCache
    case TexTemplate => params.texTemplate
    case Verbosity => params.verbose
    case OutputFile => params.output
    case WriteToMovie => params.writeToMovie
    case MediaDir => params.mediaDir
    case LogDir => params.logDir
    case LogToFile => params.logToFile
    case FromAnimationNumber => params.fromAnimationNumber
    case WriteAll => params.writeAll
    case Format => params.fileFormat
    case SaveLastFrame => params.saveLastFrame
    case Quality => params.quality
    case Resolution => params.resolution
    case FrameRate => params.frameRate
    case Renderer => params.renderer
    case UseOpenglRenderer => params.useOpenglRenderer
    case UseWebglRenderer => params.useWebglRenderer
    case WebglRendererPath => params.webglRendererPath
    case Transparent => params.transparent
    case BackgroundColor => params.backgroundColor
    case ProgressBar => params.progressBar
    case Preview => params.preview
    case ShowInFileBrowser => params.showInFileBrowser
    case Jupyter => params.jupyter
  }

  /** The `args` dictionary built from the parameters. */
  function BuildArgs(params: RenderParams): map<ArgKey, Val>
  {
    map key: ArgKey :: Param(params, key)
  }

  /** The entry under a key holds the parameter the key is filled from. */
  lemma ArgsEntry(params: RenderParams, key: ArgKey)
    ensures key in BuildArgs(params) && BuildArgs(params)[key] == Param(params, key)
  {
  }

  /** The entries about the input file, the configuration and caching hold the
      parameters of the same name. */
  lemma ArgsSourceEntries(params: RenderParams)
    ensures var args := BuildArgs(params);
            args[Ctx] == params.ctx &&
            args[File] == params.file &&
            args[ConfigFile] == params.configFile &&
            args[CustomFolders] == params.customFolders &&
            args[DisableCaching] == params.disableCaching &&
            args[FlushCache] == params.flushCache &&
            args[TexTemplate] == params.texTemplate
  {
  }

  /** The entries about what is written, and where, hold the parameters of the
      same name. */
  lemma ArgsOutputEntries(params: RenderParams)
    ensures var args := BuildArgs(params);
            args[WriteToMovie] == params.writeToMovie &&
            args[MediaDir] == params.mediaDir &&
            args[LogDir] == params.logDir &&
            args[LogToFile] == params.logToFile &&
            args[FromAnimationNumber] == params.fromAnimationNumber &&
            args[WriteAll] == params.writeAll &&
            args[SaveLastFrame] == params.saveLastFrame
  {
  }

  /** The entries about quality and the renderer flags hold the parameters of
      the same name. */
  lemma ArgsQualityEntries(params: RenderParams)
    ensures var args := BuildArgs(params);
            args[Quality] == params.quality &&
            args[Resolution] == params.resolution &&
            args[FrameRate] == params.frameRate &&
            args[UseOpenglRenderer] == params.useOpenglRenderer &&
            args[UseWebglRenderer] == params.useWebglRenderer &&
            args[WebglRendererPath] == params.webglRendererPath
  {
  }

  /** The entries about the picture and how it is shown hold the parameters of
      the same name. */
  lemma ArgsViewerEntries(params: RenderParams)
    ensures var args := BuildArgs(params);
            args[Transparent] == params.transparent &&
            args[BackgroundColor] == params.backgroundColor &&
            args[ProgressBar] == params.progressBar &&
            args[Preview] == params.preview &&
            args[ShowInFileBrowser] == params.showInFileBrowser &&
            args[Jupyter] == params.jupyter
  {
  }

  /** The four renamed entries, and the renderer entry, which holds the raw
      `--renderer` value. */
  lemma ArgsRenamedEntries(params: RenderParams)
    ensures var args := BuildArgs(params);
            SceneNames in args && args[SceneNames] == Texts(params.scenes) &&
            Verbosity in args && args[Verbosity] == params.verbose &&
            OutputFile in args && args[OutputFile] == params.output &&
            Format in args && args[Format] == params.fileFormat &&
            Renderer in args && args[Renderer] == params.renderer
  {
  }
}
