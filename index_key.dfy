/** The private key type of the paired pipeline: an element is chosen by name or by position. */
module IndexKeys {
  import opened Wrappers

  /** `new IndexKey(String)` gives `Named`, `new IndexKey(int)` gives `Indexed`. */
  datatype Key = Named(name: string) | Indexed(index: int)

  /** The two fields of a Java `IndexKey` object: `key` (null when absent) and `index`. */
  datatype JavaKey = JavaKey(key: Option<string>, index: int)

  /** `new IndexKey(String key)`: sets `key` and leaves `index` at its default 0. */
  function NewByName(name: Option<string>): JavaKey
  {
    JavaKey(name, 0)
  }

  /** `new IndexKey(int index)`: sets `index` and leaves `key` at its default null. */
  function NewByIndex(i: int): JavaKey
  {
    JavaKey(None, i)
  }

  /** The field values of the Java object a `Key` stands for. */
  function Fields(k: Key): JavaKey
  {
    match k
    case Named(n) => NewByName(Some(n))
    case Indexed(i) => NewByIndex(i)
  }

  /** `IndexKey.equals` on the fields, line by line: no key compares indices, a key compares names. */
  function JavaEquals(a: JavaKey, b: JavaKey): bool
  {
    if a.key.None? then a.index == b.index
    else b.key.Some? && a.key.value == b.key.value
  }

  /** Distinct keys stand for Java objects with distinct fields. */
  lemma FieldsInjective(a: Key, b: Key)
    ensures Fields(a) == Fields(b) <==> a == b
  {
  }

  /**
   * The key that models `new IndexKey(name)`. Its Java object has exactly the fields that
   * constructor sets, and a null name gives the very fields `new IndexKey(0)` gives.
   */
  function KeyOfName(name: Option<string>): (k: Key)
    ensures Fields(k) == NewByName(name)
    ensures name.None? <==> Fields(k) == NewByIndex(0)
  {
    match name
    case Some(n) => Named(n)
    case None => Indexed(0)
  }

  /** The Java field `index`: a name key never sets it, so it stays 0. */
  function IndexField(k: Key): int
  {
    match k
    case Named(_) => 0
    case Indexed(i) => i
  }

  /**
   * `IndexKey.equals`: a key without a name compares indices only (so it ignores the
   * other key's name); a key with a name compares names only.
   */
  function Equals(a: Key, b: Key): (r: bool)
    ensures r <==> a == b || (a == Indexed(0) && b.Named?)
  {
    match a
    case Indexed(i) => i == IndexField(b)
    case Named(n) => b.Named? && n == b.name
  }

  /** `Equals` on keys is exactly `IndexKey.equals` on the fields of the objects they stand for. */
  lemma EqualsIsJavaEquals(a: Key, b: Key)
    ensures Equals(a, b) == JavaEquals(Fields(a), Fields(b))
  {
  }

  /** Keys of the same kind are equal exactly when their names, or their indices, are. */
  lemma EqualsWithinKind(a: Key, b: Key)
    requires a.Named? == b.Named?
    ensures Equals(a, b) <==> a == b
    ensures Equals(a, b) <==> Equals(b, a)
  {
  }

  /**
   * Index key 0 equals every name key, but no name key equals an index key:
   * `equals` is not symmetric.
   */
  lemma EqualsNotSymmetric(n: string)
    ensures Equals(Indexed(0), Named(n))
    ensures !Equals(Named(n), Indexed(0))
  {
  }

  /** Where `equals` holds both ways it coincides with the structural equality the model's maps use. */
  lemma EqualsBothWays(a: Key, b: Key)
    ensures Equals(a, b) && Equals(b, a) <==> a == b
  {
  }
}
