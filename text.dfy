/** The string primitives the association relies on: Python's `str.strip()` and
    `str.isspace()`, the truthiness of an optional string, `str()` of an optional string,
    and the colon removal done by `re.sub(r':', '', s)`. */
module Text {
  import opened Wrappers

  /** A Python value that is a `str` or `None`. */
  type Value = Option<string>

  /** The characters for which Python's `str.isspace()` holds: the controls TAB..CR and
      U+001C..U+001F, SPACE, NEL, NO-BREAK SPACE and the Unicode space separators. */
  predicate IsWhitespace(c: char) {
    ('\t' <= c <= '\r') || ('\U{1C}' <= c <= '\U{1F}') || c == ' '
    || c == '\U{85}' || c == '\U{A0}' || c == '\U{1680}'
    || ('\U{2000}' <= c <= '\U{200A}') || c == '\U{2028}' || c == '\U{2029}'
    || c == '\U{202F}' || c == '\U{205F}' || c == '\U{3000}'
  }

  /** `s.lstrip()`: `s` without its leading whitespace. */
  function TrimStart(s: string): (r: string)
  {
    if s != [] && IsWhitespace(s[0]) then TrimStart(s[1..]) else s
  }

  /** What `lstrip` leaves is the suffix of `s` that starts at its first non-whitespace
      character; everything before it is whitespace. */
  lemma {:induction false} TrimStartSpec(s: string)
    ensures var r := TrimStart(s);
      && |r| <= |s| && r == s[|s| - |r|..]
      && (r == [] || !IsWhitespace(r[0]))
      && (forall i :: 0 <= i < |s| - |r| ==> IsWhitespace(s[i]))
  {
    if s != [] && IsWhitespace(s[0]) {
      TrimStartSpec(s[1..]);
    }
  }

  /** `s.rstrip()`: `s` without its trailing whitespace. */
  function TrimEnd(s: string): (r: string)
  {
    if s != [] && IsWhitespace(s[|s| - 1]) then TrimEnd(s[..|s| - 1]) else s
  }

  /** What `rstrip` leaves is the prefix of `s` that ends at its last non-whitespace
      character; everything after it is whitespace. */
  lemma {:induction false} TrimEndSpec(s: string)
    ensures var r := TrimEnd(s);
      && |r| <= |s| && r == s[..|r|]
      && (r == [] || !IsWhitespace(r[|r| - 1]))
      && (forall i :: |r| <= i < |s| ==> IsWhitespace(s[i]))
  {
    if s != [] && IsWhitespace(s[|s| - 1]) {
      TrimEndSpec(s[..|s| - 1]);
    }
  }

  /** `s.strip()`: `s` without its leading and its trailing whitespace. */
  function Strip(s: string): (r: string)
  {
    TrimEnd(TrimStart(s))
  }

  /** What `strip` leaves is the infix of `s` with only whitespace on either side of it,
      and it neither starts nor ends with whitespace. */
  lemma StripSpec(s: string)
    ensures |Strip(s)| <= |s|
    ensures Strip(s) == [] || (!IsWhitespace(Strip(s)[0]) && !IsWhitespace(Strip(s)[|Strip(s)| - 1]))
    ensures exists i, j :: 0 <= i <= j <= |s| && Strip(s) == s[i..j]
                           && (forall k :: 0 <= k < i ==> IsWhitespace(s[k]))
                           && (forall k :: j <= k < |s| ==> IsWhitespace(s[k]))
  {
    TrimStartSpec(s);
    TrimEndSpec(TrimStart(s));
    var t := TrimStart(s);
    var r := TrimEnd(t);
    if r != [] {
      assert r[0] == t[0];
    }
    var i := |s| - |t|;
    var j := i + |r|;
    assert r == s[i..j];
    forall k | j <= k < |s|
      ensures IsWhitespace(s[k])
    {
      assert s[k] == t[k - i];
    }
  }

  /** `s.strip() == ''`. */
  predicate IsBlank(s: string) {
    Strip(s) == ""
  }

  /** A string is blank exactly when every one of its characters is whitespace. */
  lemma BlankIffAllWhitespace(s: string)
    ensures IsBlank(s) <==> forall i :: 0 <= i < |s| ==> IsWhitespace(s[i])
  {
    var t := TrimStart(s);
    TrimStartSpec(s);
    TrimEndSpec(t);
    if forall i :: 0 <= i < |s| ==> IsWhitespace(s[i]) {
      AllWhitespaceTrimsAway(s);
    } else {
      var j :| 0 <= j < |s| && !IsWhitespace(s[j]);
      assert j >= |s| - |t|;
      assert t[j - (|s| - |t|)] == s[j];
      assert TrimEnd(t) != [];
    }
  }

  /** Left-trimming a string made of whitespace only leaves nothing. */
  lemma {:induction false} AllWhitespaceTrimsAway(s: string)
    requires forall i :: 0 <= i < |s| ==> IsWhitespace(s[i])
    ensures TrimStart(s) == []
  {
    if s != [] {
      AllWhitespaceTrimsAway(s[1..]);
    }
  }

  /** The guard `v is not None and v.strip() != ''` the qualifier setters apply. */
  predicate Provided(v: Value) {
    v.Some? && !IsBlank(v.value)
  }

  /** An argument is provided exactly when it is present and holds a non-whitespace
      character. */
  lemma ProvidedIff(v: Value)
    ensures Provided(v) <==> v.Some? && exists i :: 0 <= i < |v.value| && !IsWhitespace(v.value[i])
  {
    if v.Some? {
      BlankIffAllWhitespace(v.value);
    }
  }

  /** Python truthiness of a `str` or `None`: `None` and `''` are false. */
  predicate Truthy(v: Value) {
    v.Some? && v.value != ""
  }

  /** A provided value is truthy; the converse fails on a whitespace-only string. */
  lemma ProvidedIsTruthy(v: Value)
    ensures Provided(v) ==> Truthy(v)
    ensures Truthy(Some(" ")) && !Provided(Some(" "))
  {
  }

  /** `str(v)` for a `str` or `None`: a string is its own text, `None` prints as `None`. */
  function PyStr(v: Value): (r: string)
  {
    match v
    case Some(s) => s
    case None => "None"
  }

  /** `re.sub(r':', '', s)`: `s` with every colon deleted. */
  function RemoveColons(s: string): (r: string)
  {
    if s == [] then []
    else (if s[0] == ':' then [] else [s[0]]) + RemoveColons(s[1..])
  }

  /** Colon removal leaves no colon and never lengthens its input. */
  lemma {:induction false} RemoveColonsDropsColons(s: string)
    ensures ':' !in RemoveColons(s)
    ensures |RemoveColons(s)| <= |s|
  {
    if s != [] {
      RemoveColonsDropsColons(s[1..]);
    }
  }

  /** Colon removal works character by character, so it distributes over concatenation. */
  lemma {:induction false} RemoveColonsAppend(a: string, b: string)
    ensures RemoveColons(a + b) == RemoveColons(a) + RemoveColons(b)
  {
    if a != [] {
      var head := if a[0] == ':' then [] else [a[0]];
      assert (a + b)[0] == a[0];
      assert (a + b)[1..] == a[1..] + b;
      RemoveColonsAppend(a[1..], b);
      calc {
        RemoveColons(a + b);
        head + RemoveColons(a[1..] + b);
        head + (RemoveColons(a[1..]) + RemoveColons(b));
        (head + RemoveColons(a[1..])) + RemoveColons(b);
        RemoveColons(a) + RemoveColons(b);
      }
    } else {
      assert a + b == b;
    }
  }

  /** Colon removal leaves a string alone exactly when it has no colon. */
  lemma {:induction false} RemoveColonsIdentity(s: string)
    ensures RemoveColons(s) == s <==> ':' !in s
  {
    if s != [] {
      RemoveColonsIdentity(s[1..]);
      RemoveColonsDropsColons(s[1..]);
      assert s == [s[0]] + s[1..];
    }
  }

  /** Colon removal keeps every other character, as often as it occurs. */
  lemma {:induction false} RemoveColonsKeepsOthers(s: string, c: char)
    requires c != ':'
    ensures multiset(RemoveColons(s))[c] == multiset(s)[c]
  {
    if s != [] {
      RemoveColonsKeepsOthers(s[1..], c);
      assert s == [s[0]] + s[1..];
    }
  }
}
