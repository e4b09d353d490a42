/** Small helpers of the core package: type tests for generator objects,
    error formatting for a language model to read, and query normalisation. */
module Utils {
  import opened Common

  /** A property key: a string, or one of the well-known symbols. */
  datatype PropertyKey = StringKey(name: string) | SymbolIterator | SymbolAsyncIterator | OtherSymbol(description: string)

  /** An arbitrary JavaScript value, as far as `typeof`, `!= null` and the
      `in` operator see it: objects and functions carry the keys reachable
      through their prototype chain. */
  datatype JsValue =
    | Undefined
    | Null
    | Primitive(typeName: string)
    | ObjectValue(keys: set<PropertyKey>)
    | FunctionValue(keys: set<PropertyKey>)

  /** `obj != null && typeof obj === "object" && key in obj` */
  predicate IsObjectWith(obj: JsValue, key: PropertyKey) {
    obj.ObjectValue? && key in obj.keys
  }

  /** `isAsyncGenerator` */
  function IsAsyncGenerator(obj: JsValue): (b: bool)
    ensures b <==> IsObjectWith(obj, SymbolAsyncIterator)
  {
    match obj
    case ObjectValue(keys) => SymbolAsyncIterator in keys
    case _ => false
  }

  /** `isGenerator` */
  function IsGenerator(obj: JsValue): (b: bool)
    ensures b <==> IsObjectWith(obj, SymbolIterator)
  {
    match obj
    case ObjectValue(keys) => SymbolIterator in keys
    case _ => false
  }

  /** Neither test holds of `null`, `undefined`, a primitive or a function,
      whatever keys the function carries. */
  lemma GeneratorTestsRejectNonObjects(obj: JsValue)
    requires !obj.ObjectValue?
    ensures !IsAsyncGenerator(obj) && !IsGenerator(obj)
  {
  }

  /** The tests look for the symbol only, so any iterable object (an array,
      a map) passes `isGenerator` without being a generator. */
  lemma IsGeneratorAcceptsIterables(keys: set<PropertyKey>)
    requires SymbolIterator in keys
    ensures IsGenerator(ObjectValue(keys))
    ensures IsAsyncGenerator(ObjectValue(keys)) <==> SymbolAsyncIterator in keys
  {
  }

  /** The value handed to `prettifyError`: an `Error` (of any subclass, with
      its `name` and `message`), or another value with its string form. */
  datatype ErrorArgument = ErrorInstance(name: string, message: string) | NonError(asString: string)

  const ErrorPrefix: string := "Error("
  const NameSeparator: string := "): "

  /** `prettifyError` */
  function PrettifyError(error: ErrorArgument): (s: string)
    ensures error.NonError? ==> s == error.asString
    ensures error.ErrorInstance? ==> |s| == |ErrorPrefix| + |error.name| + |NameSeparator| + |error.message|
    ensures error.ErrorInstance? ==> s[..|ErrorPrefix|] == ErrorPrefix
  {
    match error
    case ErrorInstance(name, message) => ErrorPrefix + name + NameSeparator + message
    case NonError(str) => str
  }

  /** The index of the first ')' in `s` at or after `from`, or `|s|`. */
  function CloseParen(s: string, from: nat): (k: nat)
    requires from <= |s|
    ensures from <= k <= |s|
    ensures k < |s| ==> s[k] == ')'
    ensures forall i :: from <= i < k ==> s[i] != ')'
    decreases |s| - from
  {
    if from == |s| || s[from] == ')' then from else CloseParen(s, from + 1)
  }

  /** Reads a name and a message back out of `Error(<name>): <message>`. */
  function ParsePrettified(s: string): (r: Option<(string, string)>)
    ensures r.Some? ==> s == ErrorPrefix + r.value.0 + NameSeparator + r.value.1
  {
    if |s| < |ErrorPrefix| || s[..|ErrorPrefix|] != ErrorPrefix then None
    else
      var k := CloseParen(s, |ErrorPrefix|);
      if k + |NameSeparator| <= |s| && s[k..k + |NameSeparator|] == NameSeparator then
        assert s == s[..|ErrorPrefix|] + s[|ErrorPrefix|..k] + s[k..k + |NameSeparator|] + s[k + |NameSeparator|..];
        Some((s[|ErrorPrefix|..k], s[k + |NameSeparator|..]))
      else None
  }

  /** The format loses nothing for an error whose name has no ')': name and
      message can be read back. */
  lemma PrettifyErrorReadsBack(name: string, message: string)
    requires forall i :: 0 <= i < |name| ==> name[i] != ')'
    ensures ParsePrettified(PrettifyError(ErrorInstance(name, message))) == Some((name, message))
  {
    var s := PrettifyError(ErrorInstance(name, message));
    var p := |ErrorPrefix|;
    assert s[..p] == ErrorPrefix;
    assert s[p..p + |name|] == name;
    assert s[p + |name|] == ')';
    assert CloseParen(s, p) == p + |name| by {
      CloseParenSkips(s, p, p + |name|);
    }
    assert s[p + |name|..p + |name| + |NameSeparator|] == NameSeparator;
    assert s[p + |name| + |NameSeparator|..] == message;
  }

  lemma {:induction false} CloseParenSkips(s: string, from: nat, k: nat)
    requires from <= k < |s| && s[k] == ')'
    requires forall i :: from <= i < k ==> s[i] != ')'
    ensures CloseParen(s, from) == k
    decreases k - from
  {
    if from < k {
      CloseParenSkips(s, from + 1, k);
    }
  }

  /** One part of a multi-part message content (text, an image, …). */
  datatype ContentPart = TextPart(text: string) | ImagePart(url: string)

  /** `MessageContent`: a string or an array of parts. */
  datatype MessageContent = Text(text: string) | Parts(parts: seq<ContentPart>)

  /** `QueryBundle`: the query and whatever other properties the object
      carries, kept opaque. */
  datatype QueryBundle = QueryBundle(query: MessageContent, otherFields: map<string, string>)

  /** The argument of `toQueryBundle`. */
  datatype QueryArgument = Content(content: MessageContent) | Bundle(bundle: QueryBundle)

  /** `toQueryBundle`: a string or an array becomes `{query}`; a bundle is
      returned as it is. */
  function ToQueryBundle(q: QueryArgument): (b: QueryBundle)
    ensures q.Content? ==> b.query == q.content && b.otherFields == map[]
    ensures q.Bundle? ==> b == q.bundle
  {
    match q
    case Content(c) => QueryBundle(c, map[])
    case Bundle(bundle) => bundle
  }

  /** Normalising twice is normalising once. */
  lemma ToQueryBundleIdempotent(q: QueryArgument)
    ensures ToQueryBundle(Bundle(ToQueryBundle(q))) == ToQueryBundle(q)
  {
  }
}
