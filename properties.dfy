/** The network kind a node joins. Its members and their meaning belong to
    the networking layer, which is not part of this model; only the default
    member `Main` is needed here. */
module Properties {

  datatype NetworkType = Main | Other(name: string)
}
