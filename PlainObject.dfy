/**
 * Key lookup in the plain JavaScript object that holds the audits.  Reading
 * `audits[key]` also finds the properties every object inherits from
 * `Object.prototype`, and the end and resolve handlers only test the
 * result's truthiness.
 */
module PlainObject {
  import opened Text

  /**
   * The twelve properties a plain object inherits from `Object.prototype`,
   * among them the "constructor" and "toString" of the two defects below.
   */
  function PrototypeProperties(): (names: set<string>)
    ensures "constructor" in names && "toString" in names && "__proto__" in names
  {
    {"constructor", "hasOwnProperty", "isPrototypeOf", "propertyIsEnumerable", "toString",
     "toLocaleString", "valueOf", "__proto__", "__defineGetter__", "__defineSetter__",
     "__lookupGetter__", "__lookupSetter__"}
  }

  datatype Lookup = Own | Inherited | Missing

  /** What `obj[key]` finds in an object whose own keys are `own`. */
  function Get(own: set<string>, key: string): (l: Lookup)
    ensures l == Own <==> key in own
    ensures l == Inherited <==> key !in own && key in PrototypeProperties()
  {
    if key in own then Own else if key in PrototypeProperties() then Inherited else Missing
  }

  /** HTTP status of `/audit/end/:binId` as written: only a missing property gives 404. */
  function EndStatusAsWritten(own: set<string>, bin: string): (code: nat)
    ensures code == 404 <==> bin !in own && bin !in PrototypeProperties()
    ensures code == 200 || code == 404
  {
    if Get(own, bin) == Missing then 404 else 200
  }

  datatype ResolveStep = NotFound404 | Crash500 | LookUpItem

  /**
   * The audit lookup of `/audit/resolve` as written: a missing property gives
   * 404; an inherited one passes, and then `audit.items.find` throws.
   */
  function ResolveStepAsWritten(own: set<string>, binId: string): (step: ResolveStep)
    ensures step == NotFound404 <==> binId !in own && binId !in PrototypeProperties()
    ensures step == Crash500 <==> binId !in own && binId in PrototypeProperties()
    ensures step == LookUpItem <==> binId in own
  {
    match Get(own, binId)
    case Missing => NotFound404
    case Inherited => Crash500
    case Own => LookUpItem
  }

  /** Ending "constructor" when there is no such audit reports success. */
  lemma EndAcceptsInheritedKey(own: set<string>)
    requires "constructor" !in own
    ensures EndStatusAsWritten(own, "constructor") == 200
  {
  }

  /** Resolving in bin "toString" when there is no such audit fails with 500 instead of 404. */
  lemma ResolveCrashesOnInheritedKey(own: set<string>)
    requires "toString" !in own
    ensures ResolveStepAsWritten(own, "toString") == Crash500
  {
  }

  /** Lower-case ASCII at index 1 or 2: true of every inherited name. */
  predicate LowerNearStart(p: string) {
    |p| > 2 && (IsLowerAscii(p[1]) || IsLowerAscii(p[2]))
  }

  lemma PrototypePropertiesHaveLowerCase()
    ensures forall p :: p in PrototypeProperties() ==> LowerNearStart(p)
  {
  }

  /**
   * The scan handler and the start handler are not affected: upper-casing
   * leaves no lower-case letter, and every inherited name has one.
   */
  lemma UpperCasedKeyIsNeverInherited(own: set<string>, binId: string)
    ensures Get(own, UpperAscii(binId)) != Inherited
  {
    var k := UpperAscii(binId);
    assert !LowerNearStart(k);
    PrototypePropertiesHaveLowerCase();
  }
}
