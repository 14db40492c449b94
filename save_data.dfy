/** The choices `apply_save_state` makes before handing the matrix to the result
    sink: which data subtype it is stored under and under which key. */
module SaveData {
  import opened Operations

  /** A single-shot subtype is stored as an average, its classical-register
      variant as a classical-register average; every other subtype is kept. */
  function RemapSaveType(t: DataSubType): (r: DataSubType) {
    match t
    case Single => Average
    case CSingle => CAverage
    case _ => t
  }

  /** The remap never yields a single-shot subtype, changes nothing but the two
      single-shot subtypes, and applying it twice is applying it once. */
  lemma RemapSaveTypeProperties(t: DataSubType)
    ensures RemapSaveType(t) != Single && RemapSaveType(t) != CSingle
    ensures t != Single && t != CSingle ==> RemapSaveType(t) == t
    ensures RemapSaveType(RemapSaveType(t)) == RemapSaveType(t)
    ensures RemapSaveType(t).CAverage? <==> t.CSingle? || t.CAverage?
  {
  }

  /** The placeholder key `_method_` is replaced by `density_matrix`; any other
      key is used as given. */
  function SaveKey(key: string): (r: string) {
    if key == "_method_" then "density_matrix" else key
  }

  lemma SaveKeyProperties(key: string)
    ensures SaveKey(key) != "_method_"
    ensures key != "_method_" ==> SaveKey(key) == key
    ensures SaveKey(SaveKey(key)) == SaveKey(key)
  {
  }
}
