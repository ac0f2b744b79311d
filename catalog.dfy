/**
 * The catalog records read from the Hue bridge. Only the fields the
 * resolution engine looks at are kept: an id and a name, and for a scene the
 * id of the group it belongs to (a decimal string, as the bridge reports it).
 */
module Catalog {

  datatype Group = Group(id: int, name: string)

  datatype Light = Light(id: int, name: string)

  datatype Scene = Scene(id: string, name: string, group: string)

  /** An opaque handle for a connected bridge. */
  datatype Bridge = Bridge(handle: nat)
}
