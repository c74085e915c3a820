/** What a worker is warm for: a style revision in one render mode and scale. */
module Profiles {
  const U64: nat := 0x1_0000_0000_0000_0000

  datatype StyleRevision = StyleRevision(id: string, version: nat)

  datatype RenderMode = Static | Tile

  datatype Scale = X1 | X2

  datatype WorkerProfile = WorkerProfile(style: StyleRevision, mode: RenderMode, scale: Scale)
}
