/**
 * The values the plugin receives from the workflow engine: a crystal
 * structure (cell, kinds, sites), pseudopotential handles, a k-point
 * specification, the ordered parameter dictionary, and the JSON-like values a
 * `settings` dictionary can hold.
 */
module Nodes {

  /** A vector of three Cartesian components (angstrom in a structure). */
  datatype Vec3 = Vec3(x: real, y: real, z: real)

  /** A kind of a structure: its name, and whether it mixes species or has vacancies. */
  datatype Kind = Kind(name: string, isAlloy: bool, hasVacancies: bool)

  /** A site: the name of its kind and its Cartesian position. */
  datatype Site = Site(kindName: string, position: Vec3)

  /** A structure: lattice vectors (one per row), kinds in order, sites in order. */
  datatype Structure = Structure(cell: seq<Vec3>, kinds: seq<Kind>, sites: seq<Site>)

  /** A stored pseudopotential file: database key, UUID and file name. */
  datatype Pseudo = Pseudo(pk: int, uuid: string, filename: string)

  /** The k-point input: a mesh with its offset, or a list without a mesh. */
  datatype KpointsInput =
    | Mesh(n1: int, n2: int, n3: int, o1: real, o2: real, o3: real)
    | NoMesh

  /**
   * A value of the parameter dictionary. A value that is not a dictionary is
   * only ever printed with `str`, so it is kept as that text; a dictionary
   * value is kept as its ordered (key, `str(value)`) pairs, because its inner
   * values are printed with `str` and never descended into.
   */
  datatype ParamValue =
    | Scalar(text: string)
    | Nested(entries: seq<(string, string)>)

  /** The JSON values a `settings` or output-parameter dictionary can hold. */
  datatype PyValue =
    | PyNone
    | PyBool(b: bool)
    | PyInt(i: int)
    | PyFloat(f: real)
    | PyStr(s: string)
    | PyList(items: seq<PyValue>)
    | PyDict(entries: seq<(string, PyValue)>)
}
