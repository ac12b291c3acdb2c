/**
 * The dialect registry: every migration-context variant that declares its own
 * __dialect__ is registered under that name when it is declared, and a connection's
 * dialect name selects its variant, falling back to DefaultContext.
 */
module Registry {
  import opened Wrappers

  /** A migration-context variant: its class name, the __dialect__ it declares in its own
      body (None when it inherits one), and whether its DDL runs in one transaction. */
  datatype Impl = Impl(className: string, dialect: Option<string>, transactionalDdl: bool)

  /** DefaultContext: declares the 'default' dialect and non-transactional DDL. */
  const DefaultImpl: Impl := Impl("DefaultContext", Some("default"), false)

  /** The registry after a variant is declared: registered under its own __dialect__, if any. */
  function Declared(impls: map<string, Impl>, cls: Impl): map<string, Impl>
  {
    if cls.dialect.Some? then impls[cls.dialect.value := cls] else impls
  }

  /** _context_impls.get(name, DefaultContext) */
  function Resolve(impls: map<string, Impl>, name: string): (r: Impl)
    ensures r == DefaultImpl || r in impls.Values
  {
    if name in impls then impls[name] else DefaultImpl
  }

  /** Declaring a variant makes its dialect resolve to it and changes no other dialect. */
  lemma DeclareThenResolve(impls: map<string, Impl>, cls: Impl, name: string)
    ensures Resolve(Declared(impls, cls), name)
            == if cls.dialect == Some(name) then cls else Resolve(impls, name)
  {
  }

  /** A variant without a __dialect__ of its own is never selected by declaring it. */
  lemma UndeclaredDialectFallsBack(impls: map<string, Impl>, classes: seq<Impl>, name: string)
    requires name !in impls
    requires forall i :: 0 <= i < |classes| ==> classes[i].dialect != Some(name)
    ensures Resolve(DeclareAll(impls, classes), name) == DefaultImpl
  {
    DeclareAllKeys(impls, classes, name);
  }

  function DeclareAll(impls: map<string, Impl>, classes: seq<Impl>): map<string, Impl>
    decreases |classes|
  {
    if classes == [] then impls else DeclareAll(Declared(impls, classes[0]), classes[1..])
  }

  lemma {:induction false} DeclareAllKeys(impls: map<string, Impl>, classes: seq<Impl>, name: string)
    requires name !in impls
    requires forall i :: 0 <= i < |classes| ==> classes[i].dialect != Some(name)
    ensures name !in DeclareAll(impls, classes)
    decreases |classes|
  {
    if classes != [] {
      DeclareAllKeys(Declared(impls, classes[0]), classes[1..], name);
    }
  }

  /** The process-wide _context_impls dictionary. */
  class ContextRegistry {
    var impls: map<string, Impl>

    /** Declaring DefaultContext registers it under 'default'. */
    constructor ()
      ensures impls == map["default" := DefaultImpl]
    {
      impls := Declared(map[], DefaultImpl);
    }

    /** ContextMeta.__init__: runs whenever a variant class is declared. */
    method Declare(cls: Impl)
      modifies this
      ensures impls == Declared(old(impls), cls)
      ensures cls.dialect.Some? ==> Lookup(cls.dialect.value) == cls
      ensures forall name :: Some(name) != cls.dialect ==> Lookup(name) == old(Lookup(name))
    {
      impls := Declared(impls, cls);
    }

    function Lookup(name: string): Impl
      reads this
    {
      Resolve(impls, name)
    }
  }
}
