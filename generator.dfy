/**
 * The pure logic of the swagger-to-C++ model generator (generate.py): how
 * swagger names become C++ class and member names, how a property schema
 * becomes a C++ type, and the order in which the definitions are written so
 * that every class comes after the classes it refers to.
 *
 * The swagger document is the value `json.load` builds: a dict keeps its keys
 * in file order, and its keys are distinct.
 */
module Generator {
  import opened Wrappers
  import opened Strings

  datatype Doc =
    | DStr(s: string)
    | DNum(n: int)
    | DBool(b: bool)
    | DNull
    | DList(items: seq<Doc>)
    | DDict(entries: seq<Entry>)

  datatype Entry = Entry(key: string, value: Doc)

  /** The Python exceptions the generator can stop with, and its own `sys.exit(1)`. */
  datatype GenError =
    | IndexError              // `name[0]` on an empty name
    | KeyError(key: string)   // a dict lookup of a missing key
    | AttributeError          // `.replace` or `.items()` on a value of the wrong kind
    | TypeError               // `in` or `[...]` on a value that does not support it
    | RecursionError          // Python's recursion limit
    | UnknownProperty(d: Doc) // "**** error: unknown property", exit status 1

  /** The prefix a swagger reference carries before the definition's name. */
  const DefinitionsPrefix: string := "#/definitions/"

  /** The position of `key` in a dict, or -1: `key in d` and `d[key]`. */
  function Find(es: seq<Entry>, key: string): (i: int)
    ensures -1 <= i < |es|
    ensures i >= 0 ==> es[i].key == key
    ensures i < 0 <==> forall j :: 0 <= j < |es| ==> es[j].key != key
  {
    if es == [] then -1
    else if es[0].key == key then 0
    else
      var i := Find(es[1..], key);
      if i < 0 then -1 else i + 1
  }

  /** `sub in s` for Python strings: a substring test. */
  predicate Contains(s: string, sub: string) {
    exists j :: 0 <= j <= |s| && OccursAt(s, sub, j)
  }

  // ----- names ----------------------------------------------------------------------

  /** A character after `replace('-', '_')`. */
  function Underscored(c: char): char {
    if c == '-' then '_' else c
  }

  /**
   * `caseize_class`: hyphens become underscores and the first character is
   * upper-cased; an empty name fails on its first character.
   */
  function CaseizeClass(name: string): (r: Result<string, GenError>)
    ensures r.Err? <==> name == []
    ensures r.Err? ==> r.error == IndexError
    ensures r.Ok? ==> |r.value| == |name| && r.value[0] == ToUpperAscii(Underscored(name[0]))
                      && (forall i :: 1 <= i < |name| ==> r.value[i] == Underscored(name[i]))
  {
    var n := ReplaceChar(name, '-', '_');
    if n == [] then Err(IndexError) else Ok([ToUpperAscii(n[0])] + n[1..])
  }

  /** `caseize_property`: as `caseize_class`, but the first character is lower-cased. */
  function CaseizeProperty(property: string): (r: Result<string, GenError>)
    ensures r.Err? <==> property == []
    ensures r.Err? ==> r.error == IndexError
    ensures r.Ok? ==> |r.value| == |property| && r.value[0] == ToLowerAscii(Underscored(property[0]))
                      && (forall i :: 1 <= i < |property| ==> r.value[i] == Underscored(property[i]))
  {
    var n := ReplaceChar(property, '-', '_');
    if n == [] then Err(IndexError) else Ok([ToLowerAscii(n[0])] + n[1..])
  }

  /** A generated name holds no hyphen, and caseizing it again changes nothing. */
  lemma CaseizeIdempotent(name: string)
    requires name != []
    ensures '-' !in CaseizeClass(name).value && '-' !in CaseizeProperty(name).value
    ensures CaseizeClass(CaseizeClass(name).value) == CaseizeClass(name)
    ensures CaseizeProperty(CaseizeProperty(name).value) == CaseizeProperty(name)
  {
    var c := CaseizeClass(name).value;
    var p := CaseizeProperty(name).value;
    assert forall i :: 0 <= i < |c| ==> c[i] != '-';
    assert forall i :: 0 <= i < |p| ==> p[i] != '-';
    assert CaseizeClass(c).value == c;
    assert CaseizeProperty(p).value == p;
  }

  /**
   * The class name and the member name of one swagger name differ only in the
   * case of their first character: each is recovered from the other.
   */
  lemma CaseizeRoundTrip(name: string)
    requires name != []
    ensures CaseizeProperty(CaseizeClass(name).value) == CaseizeProperty(name)
    ensures CaseizeClass(CaseizeProperty(name).value) == CaseizeClass(name)
  {
    var c := CaseizeClass(name).value;
    var p := CaseizeProperty(name).value;
    assert CaseizeProperty(c).value == p;
    assert CaseizeClass(p).value == c;
  }

  // ----- property types -------------------------------------------------------------

  /** The fixed-width C++ type a `format` names, or `int` for any other format. */
  function IntegerType(es: seq<Entry>): string {
    var f := Find(es, "format");
    if f < 0 then "int"
    else if es[f].value == DStr("int16") then "int16_t"
    else if es[f].value == DStr("uint16") then "uint16_t"
    else if es[f].value == DStr("int32") then "int32_t"
    else if es[f].value == DStr("uint32") then "uint32_t"
    else if es[f].value == DStr("int64") then "int64_t"
    else if es[f].value == DStr("uint64") then "uint64_t"
    else "int"
  }

  const VectorOpen: string := "std::vector<"

  /** `get_property_type`: the C++ type of a property schema. */
  function PropertyType(d: Doc): Result<string, GenError>
    decreases d
  {
    match d
    case DDict(es) =>
      var t := Find(es, "type");
      if t >= 0 then
        var spec := es[t].value;
        var f := Find(es, "format");
        if spec == DStr("string") then Ok("std::string")
        else if spec == DStr("number") && f < 0 then Err(KeyError("format"))
        else if spec == DStr("number") && es[f].value == DStr("float") then Ok("float")
        else if spec == DStr("number") || spec == DStr("integer") then Ok(IntegerType(es))
        else if spec == DStr("boolean") then Ok("bool")
        else if spec == DStr("array") then
          var it := Find(es, "items");
          if it < 0 then Err(KeyError("items"))
          else
            match PropertyType(es[it].value)
            case Ok(a) => Ok(VectorOpen + a + ">")
            case Err(e) => Err(e)
        else if spec == DStr("object") then Ok("object")
        else Err(UnknownProperty(d))
      else
        var ref := Find(es, "$ref");
        if ref < 0 then Err(UnknownProperty(d))
        else if !es[ref].value.DStr? then Err(AttributeError)
        else CaseizeClass(ReplaceAll(es[ref].value.s, DefinitionsPrefix, ""))
    case DStr(s) =>
      if Contains(s, "type") || Contains(s, "$ref") then Err(TypeError) else Err(UnknownProperty(d))
    case DList(xs) =>
      if DStr("type") in xs || DStr("$ref") in xs then Err(TypeError) else Err(UnknownProperty(d))
    case _ => Err(TypeError)
  }

  /** The C++ types a scalar schema maps to. */
  const ScalarTypes: set<string> :=
    {"std::string", "float", "int16_t", "uint16_t", "int32_t", "uint32_t", "int64_t", "uint64_t", "int", "bool",
     "object"}

  /** A generated class name: not empty, no hyphen, and not starting with a lower-case letter. */
  predicate IsClassName(t: string) {
    t != [] && '-' !in t && !('a' <= t[0] <= 'z')
  }

  /** `std::vector<...>` around a type. */
  predicate IsVector(t: string) {
    |t| > |VectorOpen| && t[..|VectorOpen|] == VectorOpen && t[|t| - 1] == '>'
  }

  /** A C++ type the generator writes: a scalar, a class name, or a vector of such a type. */
  predicate WellFormedType(t: string)
    decreases |t|
  {
    t in ScalarTypes || IsClassName(t) || (IsVector(t) && WellFormedType(t[|VectorOpen|..|t| - 1]))
  }

  /** Every type the generator produces is well formed and holds no hyphen. */
  lemma {:induction false} PropertyTypeWellFormed(d: Doc)
    requires PropertyType(d).Ok?
    ensures WellFormedType(PropertyType(d).value)
    ensures '-' !in PropertyType(d).value
    decreases d
  {
    var r := PropertyType(d).value;
    var es := d.entries;
    var t := Find(es, "type");
    if t >= 0 {
      if es[t].value == DStr("array") {
        var it := Find(es, "items");
        var a := PropertyType(es[it].value).value;
        PropertyTypeWellFormed(es[it].value);
        assert r == VectorOpen + a + ">";
        assert r[..|VectorOpen|] == VectorOpen;
        assert r[|VectorOpen|..|r| - 1] == a;
      } else {
        assert r in ScalarTypes;
        ScalarsHaveNoHyphen(r);
      }
    } else {
      var ref := Find(es, "$ref");
      var name := ReplaceAll(es[ref].value.s, DefinitionsPrefix, "");
      assert r == CaseizeClass(name).value;
      CaseizeIdempotent(name);
    }
  }

  lemma ScalarsHaveNoHyphen(t: string)
    requires t in ScalarTypes
    ensures '-' !in t
  {
  }

  /**
   * A `number` must carry a format: without one the float test raises
   * `KeyError`, while with one the type is always found. An `integer` without a
   * format is an `int`.
   */
  lemma NumberNeedsFormat(es: seq<Entry>)
    requires Find(es, "type") >= 0
    ensures es[Find(es, "type")].value == DStr("number") ==>
              (PropertyType(DDict(es)) == Err(KeyError("format")) <==> Find(es, "format") < 0)
              && (Find(es, "format") >= 0 ==> PropertyType(DDict(es)).Ok?)
    ensures es[Find(es, "type")].value == DStr("integer") && Find(es, "format") < 0 ==>
              PropertyType(DDict(es)) == Ok("int")
  {
  }

  /** A reference to `#/definitions/Name` names the class generated for `Name`. */
  lemma RefNamesDefinitionClass(es: seq<Entry>, name: string)
    requires Find(es, "type") < 0
    requires Find(es, "$ref") >= 0 && es[Find(es, "$ref")].value == DStr(DefinitionsPrefix + name)
    requires forall j: nat :: !OccursAt(name, DefinitionsPrefix, j)
    ensures PropertyType(DDict(es)) == CaseizeClass(name)
  {
    ReplaceAllStripsPrefix(DefinitionsPrefix, name);
  }

  /** `is_required`: it returns before reading the "required" list, so every property counts as required. */
  function IsRequired(modelDef: Doc, property: string): (r: bool)
    ensures r
  {
    true
  }

  // ----- definition order -----------------------------------------------------------

  /** The definition names referenced anywhere inside `d`, found as `iterate_multidimensional` walks it. */
  function RefsIn(d: Doc): set<string>
    decreases d, 1
  {
    match d
    case DDict(es) => RefsOfEntries(es)
    case _ => {}
  }

  function RefsOfEntries(es: seq<Entry>): set<string>
    decreases es, 0
  {
    if es == [] then {} else RefsOfEntries(es[..|es| - 1]) + EntryRefs(es[|es| - 1])
  }

  /**
   * One key and value: a dict is walked (even under "$ref"); the dicts in a
   * list are walked; a string under "$ref" is a reference.
   */
  function EntryRefs(e: Entry): set<string>
    decreases e, 0
  {
    match e.value
    case DDict(_) => RefsIn(e.value)
    case DList(xs) => RefsOfItems(xs)
    case DStr(s) => if e.key == "$ref" then {ReplaceAll(s, DefinitionsPrefix, "")} else {}
    case _ => {}
  }

  function RefsOfItems(xs: seq<Doc>): set<string>
    decreases xs, 0
  {
    if xs == [] then {} else RefsOfItems(xs[..|xs| - 1]) + RefsIn(xs[|xs| - 1])
  }

  predicate NoDups(s: seq<string>) {
    forall i, j :: 0 <= i < j < |s| ==> s[i] != s[j]
  }

  /** `s[j]` is a definition, and every name that definition refers to comes before it in `s`. */
  predicate AfterItsRefs(original: seq<Entry>, s: seq<string>, j: int)
    requires 0 <= j < |s|
  {
    var i := Find(original, s[j]);
    i >= 0 && forall x :: x in RefsIn(original[i].value) ==> x in s[..j]
  }

  /** `t` grows `s` at the end, keeps it free of duplicates, and adds each definition after its references. */
  predicate Extends(original: seq<Entry>, s: seq<string>, t: seq<string>) {
    && s <= t
    && (NoDups(s) ==> NoDups(t))
    && forall j :: |s| <= j < |t| ==> AfterItsRefs(original, t, j)
  }

  /** A definition that refers to itself. */
  predicate SelfReferent(original: seq<Entry>, n: string) {
    var i := Find(original, n);
    i >= 0 && n in RefsIn(original[i].value)
  }

  lemma ExtendsTransitive(original: seq<Entry>, s: seq<string>, t: seq<string>, u: seq<string>)
    requires Extends(original, s, t) && Extends(original, t, u)
    ensures Extends(original, s, u)
  {
    forall j | |s| <= j < |t|
      ensures AfterItsRefs(original, u, j)
    {
      assert AfterItsRefs(original, t, j);
      assert u[..j] == t[..j];
    }
  }

  /** Appending a definition whose references are all present extends the list. */
  lemma AppendExtends(original: seq<Entry>, s: seq<string>, n: string)
    requires n !in s
    requires Find(original, n) >= 0
    requires forall x :: x in RefsIn(original[Find(original, n)].value) ==> x in s
    ensures Extends(original, s, s + [n])
  {
    assert (s + [n])[..|s|] == s;
    assert AfterItsRefs(original, s + [n], |s|);
  }

  /** The references of one entry of a dict are references of the dict. */
  lemma {:induction false} EntryRefsInDict(es: seq<Entry>, i: int)
    requires 0 <= i < |es|
    ensures EntryRefs(es[i]) <= RefsOfEntries(es)
    decreases |es|
  {
    if i < |es| - 1 {
      EntryRefsInDict(es[..|es| - 1], i);
    }
  }

  /** A name added after its references is a definition. */
  lemma ListedAreDefinitions(definitions: seq<Entry>, s: seq<string>)
    requires Extends(definitions, [], s)
    ensures forall k :: k in s ==> Find(definitions, k) >= 0
  {
    forall k | k in s
      ensures Find(definitions, k) >= 0
    {
      var j :| 0 <= j < |s| && s[j] == k;
      assert AfterItsRefs(definitions, s, j);
    }
  }

  /** When no referenced definition refers to itself, no definition does. */
  lemma NoSelfReference(definitions: seq<Entry>)
    requires forall n :: n in RefsIn(DDict(definitions)) ==> !SelfReferent(definitions, n)
    ensures forall n :: !SelfReferent(definitions, n)
  {
    forall n | SelfReferent(definitions, n)
      ensures false
    {
      EntryRefsInDict(definitions, Find(definitions, n));
    }
  }

  /**
   * `iterate_multidimensional`: walks `myDict` and, at each reference, first
   * walks the referenced definition and then appends its name unless it is
   * already listed. `depth` is the number of nested calls Python still allows.
   * On success the list grows at the end with no duplicate added, every name
   * referenced in `myDict` is listed, each added definition comes after every
   * definition it refers to, and no referenced definition refers to itself.
   */
  method IterateMultidimensional(original: seq<Entry>, myDict: Doc, olist: seq<string>, depth: nat)
    returns (r: Result<seq<string>, GenError>)
    decreases depth
    ensures r.Ok? ==> Extends(original, olist, r.value)
    ensures r.Ok? ==> forall n :: n in RefsIn(myDict) ==> n in r.value && !SelfReferent(original, n)
  {
    if depth == 0 {
      return Err(RecursionError);
    }
    if !myDict.DDict? {
      return Err(AttributeError);
    }
    var es := myDict.entries;
    var acc := olist;
    var i := 0;
    while i < |es|
      invariant 0 <= i <= |es|
      invariant Extends(original, olist, acc)
      invariant forall n :: n in RefsOfEntries(es[..i]) ==> n in acc && !SelfReferent(original, n)
    {
      assert es[..i + 1][..i] == es[..i];
      var k, v := es[i].key, es[i].value;
      if v.DDict? {
        var sub := IterateMultidimensional(original, v, acc, depth - 1);
        if sub.Err? {
          return sub;
        }
        ExtendsTransitive(original, olist, acc, sub.value);
        acc := sub.value;
        i := i + 1;
        continue;
      } else if v.DList? {
        var acc0 := acc;
        var j := 0;
        while j < |v.items|
          invariant 0 <= j <= |v.items|
          invariant Extends(original, olist, acc) && acc0 <= acc
          invariant forall n :: n in RefsOfItems(v.items[..j]) ==> n in acc && !SelfReferent(original, n)
        {
          assert v.items[..j + 1][..j] == v.items[..j];
          if v.items[j].DDict? {
            var sub := IterateMultidimensional(original, v.items[j], acc, depth - 1);
            if sub.Err? {
              return sub;
            }
            ExtendsTransitive(original, olist, acc, sub.value);
            acc := sub.value;
          }
          j := j + 1;
        }
        assert v.items[..j] == v.items;
      }
      if k == "$ref" {
        if !v.DStr? {
          return Err(AttributeError);
        }
        var defRef := ReplaceAll(v.s, DefinitionsPrefix, "");
        var at := Find(original, defRef);
        if at < 0 {
          return Err(KeyError(defRef));
        }
        var sub := IterateMultidimensional(original, original[at].value, acc, depth - 1);
        if sub.Err? {
          return sub;
        }
        ExtendsTransitive(original, olist, acc, sub.value);
        acc := sub.value;
        if defRef !in acc {
          AppendExtends(original, acc, defRef);
          ExtendsTransitive(original, olist, acc, acc + [defRef]);
          acc := acc + [defRef];
        }
      }
      i := i + 1;
    }
    assert es[..i] == es;
    return Ok(acc);
  }

  /**
   * The order `generate_cpp_models` writes the definitions in: the referenced
   * definitions as `iterate_multidimensional` lists them, then every other
   * definition in file order. On success each definition appears exactly once,
   * each comes after every definition it refers to, and none refers to itself.
   */
  method DefinitionOrder(definitions: seq<Entry>, depth: nat) returns (r: Result<seq<string>, GenError>)
    ensures r.Ok? ==> NoDups(r.value)
    ensures r.Ok? ==> forall k :: k in r.value <==> Find(definitions, k) >= 0
    ensures r.Ok? ==> forall j :: 0 <= j < |r.value| ==> AfterItsRefs(definitions, r.value, j)
    ensures r.Ok? ==> forall n :: !SelfReferent(definitions, n)
  {
    var dep := IterateMultidimensional(definitions, DDict(definitions), [], depth);
    if dep.Err? {
      return dep;
    }
    var order := dep.value;
    ListedAreDefinitions(definitions, order);
    NoSelfReference(definitions);
    for i := 0 to |definitions|
      invariant Extends(definitions, [], order)
      invariant forall k :: k in order ==> Find(definitions, k) >= 0
      invariant forall j :: 0 <= j < i ==> definitions[j].key in order
      invariant forall x :: x in RefsIn(DDict(definitions)) ==> x in order
    {
      var model := definitions[i].key;
      if model !in order {
        var at := Find(definitions, model);
        EntryRefsInDict(definitions, at);
        AppendExtends(definitions, order, model);
        ExtendsTransitive(definitions, [], order, order + [model]);
        order := order + [model];
      }
    }
    forall k | Find(definitions, k) >= 0
      ensures k in order
    {
      assert definitions[Find(definitions, k)].key == k;
    }
    return Ok(order);
  }
}
