/** The product categories and the parsing of a free-text label into one of them. */
module ProductTypes {
  import opened Wrappers

  /** The closed set of categories, in declaration order. */
  datatype ProductType = NORMAL | SEASONAL | EXPIRABLE

  /** `ProductType.values()`: every category once, in declaration order. */
  const Values: seq<ProductType> := [NORMAL, SEASONAL, EXPIRABLE]

  /** The constant's declared name, as `name()` returns it. */
  function Name(t: ProductType): string {
    match t
    case NORMAL => "NORMAL"
    case SEASONAL => "SEASONAL"
    case EXPIRABLE => "EXPIRABLE"
  }

  /** Why a label does not denote a category. */
  datatype LabelError =
    | MissingLabel                  // a null label: NullPointerException in toUpperCase
    | UnknownCategory(name: string) // valueOf finds no constant: IllegalArgumentException

  /** ASCII upper-casing of one character; every other character is left as is. */
  function UpperChar(c: char): char {
    if 'a' <= c <= 'z' then (c as int - 32) as char else c
  }

  /** ASCII upper-casing of a string, character by character. */
  function ToUpper(s: string): (u: string)
    ensures |u| == |s|
    ensures forall i :: 0 <= i < |u| ==> !('a' <= u[i] <= 'z')
    ensures forall i :: 0 <= i < |s| ==>
              if 'a' <= s[i] <= 'z' then u[i] as int == s[i] as int - 32 else u[i] == s[i]
  {
    seq(|s|, i requires 0 <= i < |s| => UpperChar(s[i]))
  }

  /** `s` and `n` have the same length and agree letter by letter up to ASCII case. */
  predicate SameIgnoringCase(s: string, n: string) {
    |s| == |n| && forall i :: 0 <= i < |s| ==> UpperChar(s[i]) == UpperChar(n[i])
  }

  /** `ProductType.valueOf(name)`: an exact, case-sensitive match against the declared names. */
  function ValueOf(name: string): (r: Result<ProductType, LabelError>)
    ensures r.Success? <==> exists t :: Name(t) == name
    ensures r.Success? ==> Name(r.value) == name
    ensures r.Failure? ==> r.error == UnknownCategory(name)
  {
    if name == Name(NORMAL) then Success(NORMAL)
    else if name == Name(SEASONAL) then Success(SEASONAL)
    else if name == Name(EXPIRABLE) then Success(EXPIRABLE)
    else Failure(UnknownCategory(name))
  }

  /** `ProductType.from(value)`: upper-case the label, then look the constant up by name. */
  function From(value: Option<string>): (r: Result<ProductType, LabelError>)
    ensures value.None? <==> r == Failure(MissingLabel)
    ensures value.Some? ==> (r.Success? <==> exists t :: Name(t) == ToUpper(value.value))
    ensures r.Success? ==> Name(r.value) == ToUpper(value.value)
    ensures value.Some? && r.Failure? ==> r.error == UnknownCategory(ToUpper(value.value))
  {
    match value
    case None => Failure(MissingLabel)
    case Some(s) => ValueOf(ToUpper(s))
  }

  /** There are exactly three categories, each listed once by `values()`. */
  lemma ExactlyThreeCategories()
    ensures |Values| == 3
    ensures forall t: ProductType :: t in Values
    ensures forall i, j :: 0 <= i < j < |Values| ==> Values[i] != Values[j]
    ensures Name(Values[0]) == "NORMAL" && Name(Values[1]) == "SEASONAL" && Name(Values[2]) == "EXPIRABLE"
  {
    forall t: ProductType ensures t in Values {
      match t
      case NORMAL => assert Values[0] == t;
      case SEASONAL => assert Values[1] == t;
      case EXPIRABLE => assert Values[2] == t;
    }
  }

  /** The declared names are already upper case, so upper-casing leaves them alone. */
  lemma {:induction false} NameIsUpperCase(t: ProductType)
    ensures ToUpper(Name(t)) == Name(t)
  {
    var n := Name(t);
    forall i | 0 <= i < |n| ensures ToUpper(n)[i] == n[i] {
      match t
      case NORMAL => assert n[i] in "NORMAL";
      case SEASONAL => assert n[i] in "SEASONAL";
      case EXPIRABLE => assert n[i] in "EXPIRABLE";
    }
  }

  /** Round trip: parsing the name of a category gives that category back. */
  lemma {:induction false} FromName(t: ProductType)
    ensures From(Some(Name(t))) == Success(t)
  {
    NameIsUpperCase(t);
  }

  /** `from` ignores case: a label denotes `t` exactly when it spells `t`'s name in any case. */
  lemma {:induction false} FromIgnoresCase(s: string, t: ProductType)
    ensures From(Some(s)) == Success(t) <==> SameIgnoringCase(s, Name(t))
  {
    var n := Name(t);
    NameIsUpperCase(t);
    assert forall i :: 0 <= i < |n| ==> UpperChar(n[i]) == ToUpper(n)[i];
    if SameIgnoringCase(s, n) {
      assert ToUpper(s) == n by {
        forall i | 0 <= i < |s| ensures ToUpper(s)[i] == n[i] {
          assert UpperChar(s[i]) == UpperChar(n[i]);
        }
      }
    }
    if From(Some(s)) == Success(t) {
      assert ToUpper(s) == n;
      forall i | 0 <= i < |s| ensures UpperChar(s[i]) == UpperChar(n[i]) {
        assert ToUpper(s)[i] == UpperChar(s[i]);
      }
    }
  }

  /** Two labels that agree up to case parse to the same result, success or failure. */
  lemma {:induction false} FromCaseVariants(a: string, b: string)
    requires SameIgnoringCase(a, b)
    ensures From(Some(a)) == From(Some(b))
  {
    assert ToUpper(a) == ToUpper(b) by {
      forall i | 0 <= i < |a| ensures ToUpper(a)[i] == ToUpper(b)[i] {
        assert UpperChar(a[i]) == UpperChar(b[i]);
      }
    }
  }

  /** The empty label names no category and fails as an unknown name. */
  lemma EmptyLabelIsUnknown()
    ensures From(Some("")) == Failure(UnknownCategory(""))
  {
  }
}
