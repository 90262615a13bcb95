/**
 * Conversion of plan annotations: device types become references that are looked up by name
 * (src/blueapi/core/context.py).
 */
module TypeConversion {

  /** What a subscripted type is built from; `device` says that it is a bluesky type. */
  datatype Origin =
    | Union
    | NewUnion
    | Constructor(name: string, device: bool)

  /** A type annotation. Params is the parameter list of a callable type, which is not itself a type. */
  datatype Annotation =
    | NoneType
    | Class(name: string, device: bool)
    | Params(types: seq<Annotation>)
    | Apply(origin: Origin, args: seq<Annotation>)

  predicate IsDevice(typ: Annotation) {
    match typ
    case Class(_, device) => device
    case Apply(origin, _) => origin.Constructor? && origin.device
    case _ => false
  }

  /** A type made at run time; two of them are the same type only when they are the same object. */
  class Reference {
    const target: Annotation

    constructor (target: Annotation)
      ensures this.target == target
    {
      this.target := target;
    }
  }

  datatype Converted =
    | Unchanged(typ: Annotation)
    | SkippedNone
    | ByName(reference: Reference)
    | Rebuilt(origin: Origin, args: seq<Converted>)

  type References = map<Annotation, Reference>

  predicate KeyedByTarget(refs: References) {
    forall typ | typ in refs :: refs[typ].target == typ
  }

  /** The outermost device types in an annotation, parameter lists aside. */
  function Targets(typ: Annotation): (targets: set<Annotation>) {
    if IsDevice(typ) then {typ}
    else if typ.Apply? then
      set i, target | 0 <= i < |typ.args| && target in Targets(typ.args[i]) :: target
    else {}
  }

  /** What conversion returns once every target has its reference. */
  function Convert(typ: Annotation, noDefault: bool, refs: References): (c: Converted)
    requires Targets(typ) <= refs.Keys
    decreases typ
  {
    if typ.NoneType? && !noDefault then SkippedNone
    else if IsDevice(typ) then
      assert typ in Targets(typ);
      ByName(refs[typ])
    else if typ.Apply? && typ.args != [] then
      Rebuilt(if typ.origin.NewUnion? then Union else typ.origin, ConvertArgs(typ, |typ.args|, noDefault, refs))
    else Unchanged(typ)
  }

  /** Every target of the first n arguments has its reference. */
  predicate CoversArgs(typ: Annotation, n: nat, refs: References)
    requires typ.Apply? && n <= |typ.args|
  {
    forall i | 0 <= i < n :: Targets(typ.args[i]) <= refs.Keys
  }

  /** The first n arguments of a subscripted type, converted. */
  function ConvertArgs(typ: Annotation, n: nat, noDefault: bool, refs: References): (cs: seq<Converted>)
    requires typ.Apply? && n <= |typ.args| && CoversArgs(typ, n, refs)
    ensures |cs| == n
    ensures forall i | 0 <= i < n :: cs[i] == Convert(typ.args[i], noDefault, refs)
    decreases typ, 0
  {
    seq(n, i requires 0 <= i < n => Convert(typ.args[i], noDefault, refs))
  }

  // ---------- the class ----------

  class BlueskyContext {
    var referenceCache: References

    constructor ()
      ensures referenceCache == map[]
    {
      referenceCache := map[];
    }

    ghost predicate Valid()
      reads this
    {
      KeyedByTarget(referenceCache)
    }

    method Refer(target: Annotation) returns (r: Reference)
      requires Valid()
      modifies this
      ensures Valid() && Extends(old(referenceCache), referenceCache)
      ensures referenceCache.Keys == old(referenceCache).Keys + {target}
      ensures r == referenceCache[target]
    {
      if target !in referenceCache {
        var reference := new Reference(target);
        referenceCache := referenceCache[target := reference];
      }
      r := referenceCache[target];
    }

    /** Makes the references that are missing, no others, and keeps those already made. */
    method ConvertType(typ: Annotation, noDefault: bool) returns (c: Converted)
      requires Valid()
      modifies this
      ensures Valid() && Extends(old(referenceCache), referenceCache)
      ensures referenceCache.Keys == old(referenceCache).Keys + Targets(typ)
      ensures c == Convert(typ, noDefault, referenceCache)
      decreases typ
    {
      if typ.NoneType? && !noDefault {
        return SkippedNone;
      }
      if IsDevice(typ) {
        var r := Refer(typ);
        return ByName(r);
      }
      if typ.Apply? && typ.args != [] {
        var newTypes: seq<Converted> := [];
        for i := 0 to |typ.args|
          invariant Valid() && Extends(old(referenceCache), referenceCache)
          invariant CoversArgs(typ, i, referenceCache)
          invariant referenceCache.Keys <= old(referenceCache).Keys + Targets(typ)
          invariant newTypes == ConvertArgs(typ, i, noDefault, referenceCache)
        {
          ghost var before := referenceCache;
          var newType := ConvertType(typ.args[i], noDefault);
          OneMoreArg(typ, i, noDefault, before, referenceCache);
          newTypes := newTypes + [newType];
        }
        ArgsAreTargets(typ, referenceCache);
        return Rebuilt(if typ.origin.NewUnion? then Union else typ.origin, newTypes);
      }
      return Unchanged(typ);
    }
  }

  predicate Extends(below: References, above: References) {
    forall typ | typ in below :: typ in above && above[typ] == below[typ]
  }

  lemma OneMoreArg(typ: Annotation, i: nat, noDefault: bool, below: References, above: References)
    requires typ.Apply? && !IsDevice(typ) && i < |typ.args| && CoversArgs(typ, i, below) && Extends(below, above)
    requires above.Keys == below.Keys + Targets(typ.args[i])
    ensures CoversArgs(typ, i + 1, above) && above.Keys <= below.Keys + Targets(typ)
    ensures ConvertArgs(typ, i + 1, noDefault, above) ==
            ConvertArgs(typ, i, noDefault, below) + [Convert(typ.args[i], noDefault, above)]
  {
    forall j | 0 <= j < i
      ensures Convert(typ.args[j], noDefault, below) == Convert(typ.args[j], noDefault, above)
    {
      Stable(typ.args[j], noDefault, below, above);
    }
  }

  lemma ArgsAreTargets(typ: Annotation, refs: References)
    requires typ.Apply? && !IsDevice(typ)
    ensures CoversArgs(typ, |typ.args|, refs) <==> Targets(typ) <= refs.Keys
  {
    forall i, target | 0 <= i < |typ.args| && target in Targets(typ.args[i]) ensures target in Targets(typ) {
    }
  }

  /** References made later change no earlier conversion. */
  lemma {:induction false} Stable(typ: Annotation, noDefault: bool, below: References, above: References)
    requires Targets(typ) <= below.Keys && Extends(below, above)
    ensures Targets(typ) <= above.Keys
    ensures Convert(typ, noDefault, below) == Convert(typ, noDefault, above)
    decreases typ
  {
    if !IsDevice(typ) && typ.Apply? {
      forall i | 0 <= i < |typ.args|
        ensures Convert(typ.args[i], noDefault, below) == Convert(typ.args[i], noDefault, above) {
        Stable(typ.args[i], noDefault, below, above);
      }
      assert ConvertArgs(typ, |typ.args|, noDefault, below) == ConvertArgs(typ, |typ.args|, noDefault, above);
    }
  }

  // ---------- meaning is kept ----------

  /** The annotation a converted type stands for, references read as what they refer to. */
  function Erase(c: Converted): (typ: Annotation) {
    match c
    case Unchanged(typ) => typ
    case SkippedNone => NoneType
    case ByName(reference) => reference.target
    case Rebuilt(origin, args) => Apply(origin, seq(|args|, i requires 0 <= i < |args| => Erase(args[i])))
  }

  /** Both spellings of a union read alike, at every depth. */
  function Reading(typ: Annotation): (r: Annotation) {
    match typ
    case Apply(origin, args) =>
      Apply(if origin.NewUnion? then Union else origin, seq(|args|, i requires 0 <= i < |args| => Reading(args[i])))
    case Params(types) => Params(seq(|types|, i requires 0 <= i < |types| => Reading(types[i])))
    case _ => typ
  }

  lemma {:induction false} ConversionKeepsMeaning(typ: Annotation, noDefault: bool, refs: References)
    requires Targets(typ) <= refs.Keys && KeyedByTarget(refs)
    ensures Reading(Erase(Convert(typ, noDefault, refs))) == Reading(typ)
    decreases typ
  {
    var c := Convert(typ, noDefault, refs);
    if c.Rebuilt? {
      forall i | 0 <= i < |typ.args| ensures Reading(Erase(c.args[i])) == Reading(typ.args[i]) {
        ConversionKeepsMeaning(typ.args[i], noDefault, refs);
      }
      var erased := Erase(c);
      assert erased.args == seq(|typ.args|, i requires 0 <= i < |typ.args| => Erase(c.args[i]));
      assert Reading(erased).args == Reading(typ).args;
    }
  }

  /** Annotations that read differently are converted differently. */
  lemma {:induction false} ConversionSeparates(a: Annotation, b: Annotation, noDefault: bool, refs: References)
    requires Targets(a) <= refs.Keys && Targets(b) <= refs.Keys && KeyedByTarget(refs)
    requires Reading(a) != Reading(b)
    ensures Convert(a, noDefault, refs) != Convert(b, noDefault, refs)
  {
    ConversionKeepsMeaning(a, noDefault, refs);
    ConversionKeepsMeaning(b, noDefault, refs);
  }

  // ---------- devices are only reached through references ----------

  predicate Mentions(typ: Annotation) {
    || IsDevice(typ)
    || (typ.Apply? && exists i | 0 <= i < |typ.args| :: Mentions(typ.args[i]))
    || (typ.Params? && exists i | 0 <= i < |typ.types| :: Mentions(typ.types[i]))
  }

  /** A device type is left in the converted type, at some depth, outside every reference. */
  predicate Exposes(c: Converted) {
    match c
    case Unchanged(typ) => Mentions(typ)
    case SkippedNone => false
    case ByName(_) => false
    case Rebuilt(origin, args) =>
      (origin.Constructor? && origin.device) || exists i | 0 <= i < |args| :: Exposes(args[i])
  }

  /** A device type stands in the parameter list of some callable, itself not part of a device type. */
  predicate DeviceParameter(typ: Annotation) {
    match typ
    case Params(_) => Mentions(typ)
    case Apply(_, args) => !IsDevice(typ) && exists i | 0 <= i < |args| :: DeviceParameter(args[i])
    case _ => false
  }

  /** Conversion reaches every device type except those in a callable's parameter list, which it does not enter. */
  lemma {:induction false} OnlyParametersStayExposed(typ: Annotation, noDefault: bool, refs: References)
    requires Targets(typ) <= refs.Keys
    ensures Exposes(Convert(typ, noDefault, refs)) <==> DeviceParameter(typ)
    decreases typ
  {
    var c := Convert(typ, noDefault, refs);
    if c.Rebuilt? {
      forall i | 0 <= i < |typ.args| ensures Exposes(c.args[i]) <==> DeviceParameter(typ.args[i]) {
        OnlyParametersStayExposed(typ.args[i], noDefault, refs);
      }
    }
  }

  lemma CallableParameterStaysExposed()
    ensures var movable := Class("Movable", true);
            var callable := Apply(Constructor("Callable", false), [Params([movable]), NoneType]);
            Targets(callable) == {} && Exposes(Convert(callable, true, map[]))
  {
    var movable := Class("Movable", true);
    var callable := Apply(Constructor("Callable", false), [Params([movable]), NoneType]);
    assert Targets(callable.args[0]) == {} && Targets(callable.args[1]) == {};
    assert Mentions(callable.args[0].types[0]);
    assert DeviceParameter(callable.args[0]);
    OnlyParametersStayExposed(callable, true, map[]);
  }

  // ---------- None and unions ----------

  /** Some part of a converted type, outside references and unchanged types, satisfies p. */
  predicate SomePart(c: Converted, p: Converted -> bool) {
    p(c) || (c.Rebuilt? && exists i | 0 <= i < |c.args| :: SomePart(c.args[i], p))
  }

  const skipped: Converted -> bool := (c: Converted) => c.SkippedNone?
  const bareNone: Converted -> bool := (c: Converted) => c == Unchanged(NoneType)
  const newUnion: Converted -> bool := (c: Converted) => c.Rebuilt? && c.origin.NewUnion?

  /** None is hidden from the schema exactly when the parameter has a default; new-style unions are gone. */
  lemma {:induction false} NoneFollowsDefault(typ: Annotation, noDefault: bool, refs: References)
    requires Targets(typ) <= refs.Keys
    ensures var c := Convert(typ, noDefault, refs);
            !SomePart(c, if noDefault then skipped else bareNone) && !SomePart(c, newUnion)
    decreases typ
  {
    var c := Convert(typ, noDefault, refs);
    if c.Rebuilt? {
      forall i | 0 <= i < |typ.args|
        ensures !SomePart(c.args[i], if noDefault then skipped else bareNone) && !SomePart(c.args[i], newUnion)
      {
        NoneFollowsDefault(typ.args[i], noDefault, refs);
      }
    }
  }

  // ---------- sharing ----------

  function UsedReferences(c: Converted): (refs: set<Reference>) {
    match c
    case ByName(reference) => {reference}
    case Rebuilt(_, args) => set i, r | 0 <= i < |args| && r in UsedReferences(args[i]) :: r
    case _ => {}
  }

  /** A conversion uses the reference of each of its targets, and no other. */
  lemma {:induction false} UsesItsTargets(typ: Annotation, noDefault: bool, refs: References)
    requires Targets(typ) <= refs.Keys
    ensures UsedReferences(Convert(typ, noDefault, refs)) == set t | t in Targets(typ) :: refs[t]
    decreases typ
  {
    var c := Convert(typ, noDefault, refs);
    if c.Rebuilt? {
      forall i | 0 <= i < |typ.args|
        ensures UsedReferences(c.args[i]) == set t | t in Targets(typ.args[i]) :: refs[t]
      {
        UsesItsTargets(typ.args[i], noDefault, refs);
      }
      forall t | t in Targets(typ) ensures refs[t] in UsedReferences(c) {
        var i :| 0 <= i < |typ.args| && t in Targets(typ.args[i]);
        assert refs[t] in UsedReferences(c.args[i]);
      }
    } else if c.ByName? {
      assert Targets(typ) == {typ};
    } else {
      assert Targets(typ) == {};
    }
  }

  /** Across two conversions of one context, equal targets share a reference and distinct ones never do. */
  lemma {:induction false} SharedByTarget(a: Annotation, b: Annotation, noDefaultA: bool, noDefaultB: bool,
                                       refs: References,
                       r: Reference, s: Reference)
    requires Targets(a) <= refs.Keys && Targets(b) <= refs.Keys && KeyedByTarget(refs)
    requires r in UsedReferences(Convert(a, noDefaultA, refs)) && s in UsedReferences(Convert(b, noDefaultB, refs))
    ensures r == s <==> r.target == s.target
    ensures r.target in Targets(a) && s.target in Targets(b)
  {
    UsesItsTargets(a, noDefaultA, refs);
    UsesItsTargets(b, noDefaultB, refs);
  }

  /** Two parameters converted one after the other by the same context. */
  method ConvertTwo(a: Annotation, b: Annotation, noDefaultA: bool, noDefaultB: bool)
    returns (first: Converted, second: Converted)
    ensures Reading(Erase(first)) == Reading(a) && Reading(Erase(second)) == Reading(b)
    ensures forall r, s | r in UsedReferences(first) && s in UsedReferences(second) ::
              r == s <==> r.target == s.target
    ensures (set r | r in UsedReferences(first) :: r.target) == Targets(a)
    ensures (set r | r in UsedReferences(second) :: r.target) == Targets(b)
  {
    var context := new BlueskyContext();
    first := context.ConvertType(a, noDefaultA);
    ghost var below := context.referenceCache;
    second := context.ConvertType(b, noDefaultB);
    ghost var refs := context.referenceCache;
    Stable(a, noDefaultA, below, refs);
    ConversionKeepsMeaning(a, noDefaultA, refs);
    ConversionKeepsMeaning(b, noDefaultB, refs);
    UsesItsTargets(a, noDefaultA, refs);
    UsesItsTargets(b, noDefaultB, refs);
    assert forall t | t in Targets(a) + Targets(b) :: refs[t].target == t;
    TargetsOf(Targets(a), refs);
    TargetsOf(Targets(b), refs);
  }

  lemma TargetsOf(targets: set<Annotation>, refs: References)
    requires targets <= refs.Keys && KeyedByTarget(refs)
    ensures (set r | r in (set t | t in targets :: refs[t]) :: r.target) == targets
  {
    forall t | t in targets ensures t in (set r | r in (set u | u in targets :: refs[u]) :: r.target) {
      assert refs[t] in (set u | u in targets :: refs[u]) && refs[t].target == t;
    }
  }
}
