/**
 * The part of the JVM type system that constructor matching depends on: primitive classes and
 * their boxes (Guava's `Primitives.wrap` / `Primitives.unwrap`) and `Class.isAssignableFrom`
 * over a finite class table.
 */
module JvmTypes {
  import opened Outcomes

  /** The nine primitive classes of the JVM, `void` included. */
  datatype Primitive = Boolean | Byte | Char | Short | Int | Long | Float | Double | Void

  /** A `java.lang.Class`: either a primitive class or a reference class named by its binary name. */
  datatype JClass = PrimitiveClass(kind: Primitive) | RefClass(name: string)

  const ObjectClassName: string := "java.lang.Object"

  /** The binary name of the wrapper class of a primitive. */
  function BoxName(p: Primitive): string
  {
    match p
    case Boolean => "java.lang.Boolean"
    case Byte => "java.lang.Byte"
    case Char => "java.lang.Character"
    case Short => "java.lang.Short"
    case Int => "java.lang.Integer"
    case Long => "java.lang.Long"
    case Float => "java.lang.Float"
    case Double => "java.lang.Double"
    case Void => "java.lang.Void"
  }

  /** The primitive whose wrapper class has this name, if there is one. */
  function UnboxedKind(name: string): (r: Option<Primitive>)
    ensures r.Some? ==> BoxName(r.value) == name
  {
    if name == "java.lang.Boolean" then Some(Boolean)
    else if name == "java.lang.Byte" then Some(Byte)
    else if name == "java.lang.Character" then Some(Char)
    else if name == "java.lang.Short" then Some(Short)
    else if name == "java.lang.Integer" then Some(Int)
    else if name == "java.lang.Long" then Some(Long)
    else if name == "java.lang.Float" then Some(Float)
    else if name == "java.lang.Double" then Some(Double)
    else if name == "java.lang.Void" then Some(Void)
    else None
  }

  /** Every wrapper class name is recognised, so `UnboxedKind` and `BoxName` are inverse. */
  lemma {:induction false} UnboxedKindOfBox(p: Primitive)
    ensures UnboxedKind(BoxName(p)) == Some(p)
  {
    match p
    case Boolean =>
    case Byte =>
    case Char =>
    case Short =>
    case Int =>
    case Long =>
    case Float =>
    case Double =>
    case Void =>
  }

  /** `Primitives.wrap`: a primitive class becomes its wrapper, any other class is returned unchanged. */
  function Wrap(c: JClass): (r: JClass)
    ensures r.RefClass?
    ensures c.RefClass? ==> r == c
  {
    match c
    case PrimitiveClass(p) => RefClass(BoxName(p))
    case RefClass(_) => c
  }

  /** `Primitives.unwrap`: a wrapper class becomes its primitive, any other class is returned unchanged. */
  function Unwrap(c: JClass): (r: JClass)
    ensures c.PrimitiveClass? ==> r == c
    ensures c.RefClass? && r.PrimitiveClass? ==> c.name == BoxName(r.kind)
  {
    match c
    case PrimitiveClass(_) => c
    case RefClass(n) =>
      match UnboxedKind(n)
      case Some(p) => PrimitiveClass(p)
      case None => c
  }

  /**
   * Boxing is a bijection between the primitive classes and their wrappers: unwrapping a boxed
   * primitive gives the primitive back, and a reference class survives unwrap-then-wrap.
   */
  lemma {:induction false} WrapUnwrapInverse(c: JClass)
    ensures c.PrimitiveClass? ==> Unwrap(Wrap(c)) == c
    ensures c.RefClass? ==> Wrap(Unwrap(c)) == c
  {
    match c
    case PrimitiveClass(p) => UnboxedKindOfBox(p);
    case RefClass(n) =>
  }

  /** Unwrapping yields a given primitive exactly for that primitive's wrapper class: there is no widening. */
  lemma UnwrapIsPrimitiveExactly(name: string, p: Primitive)
    ensures Unwrap(RefClass(name)) == PrimitiveClass(p) <==> name == BoxName(p)
  {
    if name == BoxName(p) {
      UnboxedKindOfBox(p);
    }
  }

  /**
   * The class hierarchy: `supertypes[c]` holds every proper superclass and superinterface of the
   * reference class `c`, transitively. `java.lang.Object` need not be listed.
   */
  datatype ClassTable = ClassTable(supertypes: map<string, set<string>>)

  /**
   * The table is a hierarchy: supertypes are listed transitively (a supertype's own supertypes
   * are listed too) and `java.lang.Object`, the root, has none.
   */
  ghost predicate WellFormed(table: ClassTable)
  {
    && (ObjectClassName in table.supertypes ==> table.supertypes[ObjectClassName] == {})
    && forall a, b :: a in table.supertypes && b in table.supertypes[a] && b in table.supertypes ==>
         table.supertypes[b] <= table.supertypes[a]
  }

  /** `to.isAssignableFrom(from)`. */
  predicate IsAssignableFrom(table: ClassTable, to: JClass, from: JClass)
  {
    match to
    case PrimitiveClass(_) => to == from
    case RefClass(t) =>
      from.RefClass? &&
      (t == from.name || t == ObjectClassName ||
       (from.name in table.supertypes && t in table.supertypes[from.name]))
  }

  /** Assignability is reflexive. */
  lemma AssignableReflexive(table: ClassTable, c: JClass)
    ensures IsAssignableFrom(table, c, c)
  {
  }

  /** Over a well-formed table assignability is transitive, so with reflexivity it is a preorder. */
  lemma AssignableTransitive(table: ClassTable, a: JClass, b: JClass, c: JClass)
    requires WellFormed(table)
    requires IsAssignableFrom(table, a, b) && IsAssignableFrom(table, b, c)
    ensures IsAssignableFrom(table, a, c)
  {
    if a.RefClass? && a.name != ObjectClassName && a != b && b != c {
      assert b.name != ObjectClassName;
      assert b.name in table.supertypes[c.name];
      assert table.supertypes[b.name] <= table.supertypes[c.name];
    }
  }

  /** A primitive class accepts only itself; a wrapper never stands in for it. */
  lemma PrimitiveAcceptsOnlyItself(table: ClassTable, p: Primitive, from: JClass)
    ensures IsAssignableFrom(table, PrimitiveClass(p), from) <==> from == PrimitiveClass(p)
  {
  }
}
