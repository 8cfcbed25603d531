/** The collaborators the command layer calls but does not define. Each is
    reduced to the one observable fact the command layer reacts to: whether
    the call raised, and what it leaves behind when it does not. */
module Collaborators {
  import opened PyValues

  /** The output paths a scene's file writer exposes once the scene rendered. */
  datatype FileWriter = FileWriter(imagePath: string, moviePath: string, gifPath: string)

  /** A scene class as `scene_classes_from_file` yields it.
      `renderRaises`: constructing the scene (and its renderer) or calling
      `render()` raises an `Exception`.
      `writer`: the file writer of the scene's renderer after rendering.
      `openFailsAt`: the index of the first `open_media_file` call made for
      this scene that raises an `Exception`, if any.
      Exceptions that are not `Exception`s (`KeyboardInterrupt`,
      `SystemExit`) are not modelled. */
  datatype SceneClass = SceneClass(
    renderRaises: bool,
    writer: FileWriter,
    openFailsAt: Option<nat>)

  /** What `scene_classes_from_file` does: yield these scene classes, or
      raise before yielding any. Which files make it raise is decided by code
      outside this model. */
  datatype SceneSource = Loaded(classes: seq<SceneClass>) | LoadRaised

  /** What `config.digest_args` does: leave `config.renderer` set to
      `renderer`, or raise. Which arguments make it raise is decided by code
      outside this model. */
  datatype Digested = Digested(renderer: string) | DigestRaised

  /** How a run of the frame server ends: it serves until terminated, its
      module cannot be imported (`ModuleNotFoundError`), or it raises any
      other exception. */
  datatype ServerOutcome = Served | DependencyMissing | ServerRaised
}
