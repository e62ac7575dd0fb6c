/** The engine configuration of src/game/main.ts: the size of the play field. */
module GameConfig {

  /** Width of the play field in pixels. */
  const Width: int := 800

  /** Height of the play field in pixels; the scenes read it as `scale.height`. */
  const Height: int := 600
}
