/** The records of one production: a script of scenes and the generation status. */
module Types {

  /** A value that may be absent (`null` in the application). */
  datatype Option<+T> = None | Some(value: T)

  /** One narration line together with the visual prompt for its image. */
  datatype Scene = Scene(text: string, imagePrompt: string)

  /** A drafted script: its title, its scenes in narration order and the background-music prompts. */
  datatype ShortsScript = ShortsScript(title: string, scenes: seq<Scene>, bgmPrompts: seq<string>)

  /** The global status of the production. */
  datatype GenerationStatus =
    | Idle
    | ScriptGenerating
    | ScriptReview
    | ImagesGenerating
    | AudioGenerating
    | VideoGenerating
    | Zipping
    | Completed
    | Error
}
