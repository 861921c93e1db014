/** The `TrayIconId` newtype of src/tray_icon_id.rs: a string that names a tray icon. */
module TrayIconIds {

  /** `TrayIconId(pub String)`; equality is the derived one, i.e. equality of the wrapped strings. */
  datatype TrayIconId = TrayIconId(value: string)

  /** `TrayIconId::new`: wraps a copy of the given string. */
  function New(s: string): (id: TrayIconId)
    ensures id.value == s
  {
    TrayIconId(s)
  }

  /** `AsRef<str>`: the wrapped string. */
  function AsRef(id: TrayIconId): (s: string)
    ensures New(s) == id
  {
    id.value
  }

  /** `Default` (derived): the id of the empty string. */
  function Default(): (id: TrayIconId)
    ensures AsRef(id) == ""
  {
    TrayIconId("")
  }

  /** `FromStr::from_str`, whose error type is `Infallible`: it never fails. */
  function FromStr(s: string): (r: FromStrResult)
    ensures r.id == New(s)
  {
    Parsed(New(s))
  }

  /** The only outcome `from_str` can have (its error type has no values). */
  datatype FromStrResult = Parsed(id: TrayIconId)

  /**
   * The `PartialEq<&str>`, `PartialEq<String>` and `PartialEq<&String>` impls,
   * for both `TrayIconId` and `&TrayIconId`: all compare the wrapped string.
   */
  predicate EqStr(id: TrayIconId, other: string)
  {
    id.value == other
  }

  /** The derived `PartialEq` and the `PartialEq<&TrayIconId>` impl (which compares `other.0 == self.0`). */
  predicate EqId(a: TrayIconId, b: TrayIconId)
  {
    b.value == a.value
  }

  /** Comparing an id with a string succeeds exactly when the id was built from that string. */
  lemma EqStrIffNew(id: TrayIconId, s: string)
    ensures EqStr(id, s) <==> id == New(s)
  {
  }

  /** Id-to-id equality is an equivalence that coincides with value equality. */
  lemma EqIdIsEquality(a: TrayIconId, b: TrayIconId, c: TrayIconId)
    ensures EqId(a, a)
    ensures EqId(a, b) <==> EqId(b, a)
    ensures EqId(a, b) && EqId(b, c) ==> EqId(a, c)
    ensures EqId(a, b) <==> a == b
  {
  }

  /** The unit test `is_eq`: every comparison of `TrayIconId::new("t")` it makes holds. */
  lemma IsEqTest()
    ensures EqStr(New("t"), "t")
    ensures EqId(New("t"), New("t"))
    ensures AsRef(New("t")) == "t"
    ensures FromStr("t").id == New("t")
  {
  }
}
