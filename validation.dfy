/** The request checks of back/src/utils/validation.util.ts: required fields
    under JavaScript truthiness, the e-mail pattern and the password length. */
module Validation {
  import opened Common

  /** A value read from a request body. `Undefined` is a key the body does not
      have (`undefined`); `NaN` is the one number JavaScript treats as falsy
      besides 0; `Composite` is an object or array (always truthy). */
  datatype JsValue = Undefined | Null | Bool(b: bool) | Num(n: real) | NaN | Str(s: string) | Composite

  /** JavaScript truthiness: `!v` is false exactly for these values. */
  predicate Truthy(v: JsValue)
  {
    match v
    case Undefined => false
    case Null => false
    case Bool(b) => b
    case Num(n) => n != 0.0
    case NaN => false
    case Str(s) => s != ""
    case Composite => true
  }

  type Body = map<string, JsValue>

  function Get(data: Body, field: string): JsValue
  {
    if field in data then data[field] else Undefined
  }

  /** `requiredFields.filter((field) => !data[field])`. */
  function Missing(data: Body, fields: seq<string>): (r: seq<string>)
    ensures |r| <= |fields|
  {
    if fields == [] then []
    else
      var rest := Missing(data, fields[1..]);
      if Truthy(Get(data, fields[0])) then rest else [fields[0]] + rest
  }

  /** Only listed fields that are falsy are reported. */
  lemma {:induction false} MissingSound(data: Body, fields: seq<string>, k: int)
    requires 0 <= k < |Missing(data, fields)|
    ensures Missing(data, fields)[k] in fields
    ensures !Truthy(Get(data, Missing(data, fields)[k]))
  {
    if Truthy(Get(data, fields[0])) {
      MissingSound(data, fields[1..], k);
    } else if k > 0 {
      MissingSound(data, fields[1..], k - 1);
    }
  }

  /** Every falsy listed field is reported. */
  lemma {:induction false} MissingComplete(data: Body, fields: seq<string>, f: string)
    requires f in fields && !Truthy(Get(data, f))
    ensures f in Missing(data, fields)
  {
    if fields[0] != f {
      assert f in fields[1..];
      MissingComplete(data, fields[1..], f);
    }
  }

  /** Filtering distributes over concatenation, so the missing fields are
      reported in the order they were listed. */
  lemma {:induction false} MissingAppend(data: Body, a: seq<string>, b: seq<string>)
    ensures Missing(data, a + b) == Missing(data, a) + Missing(data, b)
  {
    if a == [] {
      assert a + b == b;
    } else {
      var ab := a + b;
      assert ab[0] == a[0] && ab[1..] == a[1..] + b;
      MissingAppend(data, a[1..], b);
      var head := if Truthy(Get(data, a[0])) then [] else [a[0]];
      assert Missing(data, ab) == head + Missing(data, ab[1..]);
      assert Missing(data, a) == head + Missing(data, a[1..]);
    }
  }

  /** `validateRequiredFields`: fails exactly when some listed field is falsy,
      and the error names every such field. */
  function ValidateRequiredFields(data: Body, fields: seq<string>): (r: Outcome)
    ensures r.Fail? <==> exists f :: f in fields && !Truthy(Get(data, f))
    ensures r.Fail? ==> r.error == BadRequest(MissingFields(Missing(data, fields)))
  {
    var missing := Missing(data, fields);
    assert forall f :: f in fields && !Truthy(Get(data, f)) ==> f in missing by {
      forall f | f in fields && !Truthy(Get(data, f)) ensures f in missing {
        MissingComplete(data, fields, f);
      }
    }
    if |missing| > 0 then
      MissingSound(data, fields, 0);
      Fail(BadRequest(MissingFields(missing)))
    else Pass
  }

  /** A number field holding 0 fails the required-field check, although the key is present. */
  lemma ZeroIsMissing(data: Body, fields: seq<string>, f: string)
    requires f in fields && f in data && data[f] == Num(0.0)
    ensures ValidateRequiredFields(data, fields) == Fail(BadRequest(MissingFields(Missing(data, fields))))
    ensures f in Missing(data, fields)
  {
    MissingComplete(data, fields, f);
  }

  /** Characters the class `[^\s@]` admits. */
  predicate PlainChar(c: char)
  {
    !IsSpace(c) && c != '@'
  }

  predicate AllPlain(t: string)
  {
    forall k :: 0 <= k < |t| ==> PlainChar(t[k])
  }

  /** `/^[^\s@]+@[^\s@]+\.[^\s@]+$/.test(s)`, by positions: an '@' at `i`
      and a '.' at `j` split `s` into three non-empty runs of plain characters. */
  predicate IsEmail(s: string)
  {
    exists i, j | 0 < i && i + 1 < j < |s| - 1 ::
      s[i] == '@' && s[j] == '.' && AllPlain(s[..i]) && AllPlain(s[i + 1..j]) && AllPlain(s[j + 1..])
  }

  /** The regular expression read as a language: local@domain.tld, three
      non-empty runs of plain characters. */
  ghost predicate EmailPattern(s: string)
  {
    exists local: string, domain: string, tld: string ::
      s == local + "@" + domain + "." + tld
      && local != [] && domain != [] && tld != []
      && AllPlain(local) && AllPlain(domain) && AllPlain(tld)
  }

  /** The positional test accepts exactly the strings the pattern describes. */
  lemma EmailMatchesPattern(s: string)
    ensures IsEmail(s) <==> EmailPattern(s)
  {
    if IsEmail(s) {
      EmailToPattern(s);
    }
    if EmailPattern(s) {
      var local: string, domain: string, tld: string :|
        s == local + "@" + domain + "." + tld
        && local != [] && domain != [] && tld != []
        && AllPlain(local) && AllPlain(domain) && AllPlain(tld);
      PatternToEmail(s, local, domain, tld);
    }
  }

  lemma EmailToPattern(s: string)
    requires IsEmail(s)
    ensures EmailPattern(s)
  {
    var i, j :| 0 < i && i + 1 < j < |s| - 1 && s[i] == '@' && s[j] == '.'
      && AllPlain(s[..i]) && AllPlain(s[i + 1..j]) && AllPlain(s[j + 1..]);
    SplitAtMarks(s, i, j);
    PatternWitness(s, s[..i], s[i + 1..j], s[j + 1..]);
  }

  /** Cutting at an '@' at `i` and a '.' at `j` and joining again. */
  lemma SplitAtMarks(s: string, i: int, j: int)
    requires 0 < i && i + 1 < j < |s| - 1 && s[i] == '@' && s[j] == '.'
    ensures s == s[..i] + "@" + s[i + 1..j] + "." + s[j + 1..]
  {
    var local, domain, tld := s[..i], s[i + 1..j], s[j + 1..];
    assert s[j..] == "." + tld;
    assert s[i + 1..] == domain + s[j..];
    assert s[i..] == "@" + s[i + 1..];
    assert s == local + s[i..];
  }

  lemma PatternWitness(s: string, local: string, domain: string, tld: string)
    requires s == local + "@" + domain + "." + tld
    requires local != [] && domain != [] && tld != []
    requires AllPlain(local) && AllPlain(domain) && AllPlain(tld)
    ensures EmailPattern(s)
  {
  }

  lemma PatternToEmail(s: string, local: string, domain: string, tld: string)
    requires s == local + "@" + domain + "." + tld
    requires local != [] && domain != [] && tld != []
    requires AllPlain(local) && AllPlain(domain) && AllPlain(tld)
    ensures IsEmail(s)
  {
    var i, j := |local|, |local| + 1 + |domain|;
    assert s[i] == '@' && s[j] == '.';
    assert s[..i] == local;
    assert s[i + 1..j] == domain;
    assert s[j + 1..] == tld;
  }

  /** Outside the '@' an address holds only plain characters. */
  lemma PlainOutsideAt(s: string, i: int, j: int)
    requires 0 < i && i + 1 < j < |s| - 1 && s[j] == '.'
    requires AllPlain(s[..i]) && AllPlain(s[i + 1..j]) && AllPlain(s[j + 1..])
    ensures forall m :: 0 <= m < |s| && m != i ==> PlainChar(s[m])
  {
    forall m | 0 <= m < |s| && m != i ensures PlainChar(s[m]) {
      if m < i { assert s[..i][m] == s[m]; }
      else if m < j { assert s[i + 1..j][m - i - 1] == s[m]; }
      else if m > j { assert s[j + 1..][m - j - 1] == s[m]; }
    }
  }

  /** An address has exactly one '@' and no white space. */
  lemma EmailHasOneAt(s: string, k: int)
    requires IsEmail(s) && 0 <= k < |s|
    ensures !IsSpace(s[k])
    ensures s[k] == '@' <==> forall m :: 0 <= m < |s| && m != k ==> s[m] != '@'
  {
    var i, j :| 0 < i && i + 1 < j < |s| - 1 && s[i] == '@' && s[j] == '.'
      && AllPlain(s[..i]) && AllPlain(s[i + 1..j]) && AllPlain(s[j + 1..]);
    PlainOutsideAt(s, i, j);
    if k != i {
      assert s[i] == '@';
    }
  }

  /** `validateEmail` */
  function ValidateEmail(s: string): (r: Outcome)
    ensures r == Pass <==> EmailPattern(s)
    ensures r.Fail? ==> r.error == BadRequest(InvalidEmail)
  {
    EmailMatchesPattern(s);
    if IsEmail(s) then Pass else Fail(BadRequest(InvalidEmail))
  }

  const MinPasswordLength: int := 6

  /** `validatePassword`; the length is JavaScript's, in UTF-16 code units. */
  function ValidatePassword(p: string): (r: Outcome)
    ensures r == Pass <==> Utf16Length(p) >= MinPasswordLength
    ensures r.Fail? ==> r.error == BadRequest(PasswordTooShort)
    ensures |p| >= MinPasswordLength ==> r == Pass
  {
    if Utf16Length(p) < MinPasswordLength then Fail(BadRequest(PasswordTooShort)) else Pass
  }

  /** Three emoji are six code units, so they make a long enough password. */
  lemma EmojiPasswordAccepted()
    ensures ValidatePassword("\U{1F600}\U{1F600}\U{1F600}") == Pass
  {
    assert Utf16Length("\U{1F600}\U{1F600}\U{1F600}") == 6 by {
      var s := "\U{1F600}\U{1F600}\U{1F600}";
      assert s[1..][1..][1..] == [];
    }
  }
}
