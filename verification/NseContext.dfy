/**
 How the version that Register wrote travels to a later Unregister: as a value in the
 call's context.
 */
module NseContext {
  import opened Wrappers
  import opened ApiStore

  /** A version, or a value of some other type stored by other chain elements. */
  datatype Value = Version(version: nat) | Foreign(tag: nat)

  datatype ContextKey = VersionKey | OtherKey(id: nat)

  datatype Context = Background | WithValue(parent: Context, key: ContextKey, value: Value)

  function ValueOf(ctx: Context, key: ContextKey): Option<Value> {
    match ctx
    case Background => None
    case WithValue(parent, k, v) => if k == key then Some(v) else ValueOf(parent, key)
  }

  function WithNSEVersion(ctx: Context, version: nat): Context {
    WithValue(ctx, VersionKey, Version(version))
  }

  function NSEVersionFromContext(ctx: Context): Option<nat> {
    match ValueOf(ctx, VersionKey)
    case Some(Version(v)) => Some(v)
    case _ => None
  }

  /** The context after later chain elements stored values of their own. */
  function Derive(ctx: Context, values: seq<(nat, Value)>): Context {
    if values == [] then ctx
    else
      var last := values[|values| - 1];
      WithValue(Derive(ctx, values[..|values| - 1]), OtherKey(last.0), last.1)
  }

  /**
   A version stored in a context is what is read from every context derived from it,
   whatever the other elements store; it hides an older version and no other value.
   */
  lemma {:induction false} VersionTravels(ctx: Context, version: nat, values: seq<(nat, Value)>)
    ensures NSEVersionFromContext(Derive(WithNSEVersion(ctx, version), values)) == Some(version)
    ensures NSEVersionFromContext(Derive(ctx, values)) == NSEVersionFromContext(ctx)
    ensures forall id :: ValueOf(WithNSEVersion(ctx, version), OtherKey(id)) == ValueOf(ctx, OtherKey(id))
  {
    if values == [] {
    } else {
      VersionTravels(ctx, version, values[..|values| - 1]);
    }
  }

  /** The version that is put into a context is read back, and no other value changes. */
  lemma VersionIsRead(ctx: Context, version: nat)
    ensures NSEVersionFromContext(WithNSEVersion(ctx, version)) == Some(version)
    ensures forall id :: ValueOf(WithNSEVersion(ctx, version), OtherKey(id)) == ValueOf(ctx, OtherKey(id))
  {
    VersionTravels(ctx, version, []);
  }

  /**
   A version is read exactly if one was stored under its key.  In particular none is read
   from a context in which only other elements have stored values.
   */
  lemma {:induction false} VersionIsReadIff(ctx: Context, values: seq<(nat, Value)>)
    ensures forall v: nat :: NSEVersionFromContext(ctx) == Some(v) <==> ValueOf(ctx, VersionKey) == Some(Version(v))
    ensures NSEVersionFromContext(Derive(Background, values)) == None
  {
    if values == [] {
    } else {
      VersionIsReadIff(ctx, values[..|values| - 1]);
    }
  }
}
