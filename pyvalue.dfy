/** Decoded JSON values as the Python code sees them, together with the
    handful of Python built-ins the core leans on: truthiness, `dict.get`,
    `or`-chains, `str()`, `float()`, `int()` and the ASCII string methods. */
module PyValue {
  import opened Wrappers

  /** A JSON value after `json.loads`: numbers stay `int` or `float` as
      Python keeps them. */
  datatype Value =
    | Null
    | Bool(b: bool)
    | Int(i: int)
    | Float(x: real)
    | Str(s: string)
    | List(items: seq<Value>)
    | Dict(fields: map<string, Value>)

  /** One decoded JSON object (a transaction, a programme, a campaign). */
  type Row = map<string, Value>

  /** The built-ins whose exact text behaviour is outside the model:
      `float(s)` and `int(s)` on text (None where Python raises
      ValueError), `str()` of a float, `str()` of a list or dict, and the
      text sqlite keeps when a float is stored in a TEXT column. */
  datatype Builtins = Builtins(
    parseFloat: string -> Option<real>,
    parseInt: string -> Option<int>,
    floatText: real -> string,
    containerText: Value -> string,
    sqliteRealText: real -> string)

  /** `type(v).__name__`, as Python's error messages name a value's type. */
  function TypeName(v: Value): string {
    match v
    case Null => "NoneType"
    case Bool(_) => "bool"
    case Int(_) => "int"
    case Float(_) => "float"
    case Str(_) => "str"
    case List(_) => "list"
    case Dict(_) => "dict"
  }

  /** The message of the AttributeError a method call `.name(..)` raises
      on a value of a type without that method. */
  function MethodError(v: Value, name: string): string {
    "AttributeError: '" + TypeName(v) + "' object has no attribute '" + name + "'"
  }

  /** The message of the AttributeError `.lower()` raises on a value that
      is not text. */
  function LowerError(v: Value): string {
    MethodError(v, "lower")
  }

  /** The message of the TypeError a `for` loop raises on a value that is
      not iterable. */
  function NotIterableError(v: Value): string {
    "TypeError: '" + TypeName(v) + "' object is not iterable"
  }

  /** The message `int(v)` raises where it has no result: a ValueError for
      text that is not a decimal integer, a TypeError for a container. */
  function IntError(v: Value): string {
    match v
    case Str(s) => "ValueError: invalid literal for int() with base 10: '" + s + "'"
    case _ => "TypeError: int() argument must be a string, a bytes-like object or a real number, not '" + TypeName(v) + "'"
  }

  /** Python truthiness. */
  predicate Truthy(v: Value) {
    match v
    case Null => false
    case Bool(b) => b
    case Int(i) => i != 0
    case Float(x) => x != 0.0
    case Str(s) => s != ""
    case List(items) => items != []
    case Dict(fields) => fields != map[]
  }

  /** `row.get(key)`: None when the key is absent. */
  function Get(row: Row, key: string): (v: Value)
    ensures key !in row ==> v == Null
    ensures key in row ==> v == row[key]
  {
    if key in row then row[key] else Null
  }

  /** `a or b or ... or z`: the first truthy operand, else the last one. */
  function Or(vs: seq<Value>): (v: Value)
    requires vs != []
    ensures v in vs
    ensures Truthy(v) <==> exists k :: 0 <= k < |vs| && Truthy(vs[k])
  {
    if |vs| == 1 || Truthy(vs[0]) then vs[0] else Or(vs[1..])
  }

  /** `a or b`, the two-operand chain most defaults are written as. */
  function OrElse(a: Value, b: Value): Value {
    if Truthy(a) then a else b
  }

  /** `OrElse` is the two-operand `or`-chain. */
  lemma OrElseIsOr(a: Value, b: Value)
    ensures OrElse(a, b) == Or([a, b])
  {
    assert [a, b][1..] == [b];
  }

  /** `row.get(k1) or row.get(k2) or ...` over a list of keys. */
  function OrKeys(row: Row, keys: seq<string>): (v: Value)
    requires keys != []
    ensures Truthy(v) <==> exists k :: 0 <= k < |keys| && Truthy(Get(row, keys[k]))
  {
    Or(Gets(row, keys))
  }

  function Gets(row: Row, keys: seq<string>): (vs: seq<Value>)
    ensures |vs| == |keys|
    ensures forall k :: 0 <= k < |keys| ==> vs[k] == Get(row, keys[k])
  {
    if keys == [] then [] else [Get(row, keys[0])] + Gets(row, keys[1..])
  }

  /** The value of an `or`-chain is its first truthy operand, and the last
      operand when none is truthy. */
  lemma {:induction false} OrIsFirstTruthy(vs: seq<Value>, k: nat)
    requires k < |vs|
    requires Truthy(vs[k])
    requires forall j :: 0 <= j < k ==> !Truthy(vs[j])
    ensures Or(vs) == vs[k]
  {
    if k > 0 {
      assert !Truthy(vs[0]);
      assert |vs| > 1;
      OrIsFirstTruthy(vs[1..], k - 1);
    }
  }

  lemma {:induction false} OrOfFalsyIsLast(vs: seq<Value>)
    requires vs != []
    requires forall j :: 0 <= j < |vs| ==> !Truthy(vs[j])
    ensures Or(vs) == vs[|vs| - 1]
  {
    if |vs| > 1 {
      assert !Truthy(vs[0]);
      OrOfFalsyIsLast(vs[1..]);
    }
  }

  // ---------------------------------------------------------------- str()

  function DigitChar(d: nat): char
    requires d < 10
  {
    "0123456789"[d]
  }

  function NatText(n: nat): (t: string)
    ensures t != []
    ensures forall k :: 0 <= k < |t| ==> '0' <= t[k] <= '9'
  {
    if n < 10 then [DigitChar(n)] else NatText(n / 10) + [DigitChar(n % 10)]
  }

  /** `str(i)` for a Python int. */
  function IntText(i: int): (t: string)
    ensures t != []
  {
    if i < 0 then "-" + NatText(-i) else NatText(i)
  }

  /** `str(v)`. */
  function Show(v: Value, bi: Builtins): string {
    match v
    case Null => "None"
    case Bool(b) => if b then "True" else "False"
    case Int(i) => IntText(i)
    case Float(x) => bi.floatText(x)
    case Str(s) => s
    case List(_) => bi.containerText(v)
    case Dict(_) => bi.containerText(v)
  }

  /** `float(v)`; None where Python raises. */
  function PyFloat(v: Value, bi: Builtins): (r: Option<real>)
    ensures v.Float? ==> r == Some(v.x)
    ensures v.Int? ==> r == Some(v.i as real)
    ensures v.Null? || v.List? || v.Dict? ==> r.None?
  {
    match v
    case Null => None
    case Bool(b) => Some(if b then 1.0 else 0.0)
    case Int(i) => Some(i as real)
    case Float(x) => Some(x)
    case Str(s) => bi.parseFloat(s)
    case List(_) => None
    case Dict(_) => None
  }

  /** Python's `int(x)` on a float truncates toward zero. */
  function TruncateReal(x: real): (i: int)
    ensures x >= 0.0 ==> i as real <= x < i as real + 1.0
    ensures x < 0.0 ==> i as real - 1.0 < x <= i as real
  {
    if x >= 0.0 then x.Floor else -((-x).Floor)
  }

  /** `int(v)`; None where Python raises. */
  function PyInt(v: Value, bi: Builtins): (r: Option<int>)
    ensures v.Int? ==> r == Some(v.i)
    ensures v.Null? || v.List? || v.Dict? ==> r.None?
  {
    match v
    case Null => None
    case Bool(b) => Some(if b then 1 else 0)
    case Int(i) => Some(i)
    case Float(x) => Some(TruncateReal(x))
    case Str(s) => bi.parseInt(s)
    case List(_) => None
    case Dict(_) => None
  }

  // ------------------------------------------------------- string methods

  /** Characters `str.strip()` removes (the ASCII whitespace). */
  predicate IsSpace(c: char) {
    c == ' ' || c == '\t' || c == '\n' || c == '\r' || c == '\U{000B}' || c == '\U{000C}'
  }

  function StripLeft(s: string): (t: string)
    ensures t == [] || !IsSpace(t[0])
    ensures |t| <= |s|
  {
    if s != [] && IsSpace(s[0]) then StripLeft(s[1..]) else s
  }

  function StripRight(s: string): (t: string)
    ensures t == [] || !IsSpace(t[|t| - 1])
    ensures t <= s
  {
    if s != [] && IsSpace(s[|s| - 1]) then StripRight(s[..|s| - 1]) else s
  }

  /** `s.strip()`. */
  function Strip(s: string): (t: string)
    ensures t == [] || (!IsSpace(t[0]) && !IsSpace(t[|t| - 1]))
    ensures |t| <= |s|
  {
    StripRight(StripLeft(s))
  }

  /** `str(v).strip()`: the text of a value without its surrounding
      whitespace. */
  function ShowStripped(v: Value, bi: Builtins): (t: string)
    ensures t == [] || (!IsSpace(t[0]) && !IsSpace(t[|t| - 1]))
  {
    Strip(Show(v, bi))
  }

  function LowerChar(c: char): char {
    if 'A' <= c <= 'Z' then (c as int + 32) as char else c
  }

  function UpperChar(c: char): char {
    if 'a' <= c <= 'z' then (c as int - 32) as char else c
  }

  /** `s.lower()` on ASCII letters. */
  function Lower(s: string): (t: string)
    ensures |t| == |s|
    ensures forall k :: 0 <= k < |s| ==> t[k] == LowerChar(s[k])
  {
    if s == [] then [] else [LowerChar(s[0])] + Lower(s[1..])
  }

  /** `s.upper()` on ASCII letters. */
  function Upper(s: string): (t: string)
    ensures |t| == |s|
    ensures forall k :: 0 <= k < |s| ==> t[k] == UpperChar(s[k])
  {
    if s == [] then [] else [UpperChar(s[0])] + Upper(s[1..])
  }

  /** `s.replace(c, "")` for a single character. */
  function RemoveChar(s: string, c: char): (t: string)
    ensures c !in t
    ensures |t| <= |s|
  {
    if s == [] then [] else (if s[0] == c then [] else [s[0]]) + RemoveChar(s[1..], c)
  }

  /** No ASCII capital letter in `s`. */
  predicate NoUpperCase(s: string) {
    forall k :: 0 <= k < |s| ==> !('A' <= s[k] <= 'Z')
  }

  /** No ASCII small letter in `s`. */
  predicate NoLowerCase(s: string) {
    forall k :: 0 <= k < |s| ==> !('a' <= s[k] <= 'z')
  }

  /** `s.lower()` leaves no capital letter. */
  lemma LowerIsLower(s: string)
    ensures NoUpperCase(Lower(s))
  {
    forall k | 0 <= k < |s| ensures !('A' <= Lower(s)[k] <= 'Z') {
      assert Lower(s)[k] == LowerChar(s[k]);
    }
  }

  /** `s.upper()` leaves no small letter. */
  lemma UpperIsUpper(s: string)
    ensures NoLowerCase(Upper(s))
  {
    forall k | 0 <= k < |s| ensures !('a' <= Upper(s)[k] <= 'z') {
      assert Upper(s)[k] == UpperChar(s[k]);
    }
  }

  /** Leading whitespace is what `lstrip` removes. */
  lemma {:induction false} StripLeftPadded(pre: string, s: string)
    requires forall k :: 0 <= k < |pre| ==> IsSpace(pre[k])
    ensures StripLeft(pre + s) == StripLeft(s)
    decreases |pre|
  {
    if pre == [] {
      assert pre + s == s;
    } else {
      assert (pre + s)[1..] == pre[1..] + s;
      StripLeftPadded(pre[1..], s);
    }
  }

  /** Trailing whitespace is what `rstrip` removes. */
  lemma {:induction false} StripRightPadded(s: string, post: string)
    requires forall k :: 0 <= k < |post| ==> IsSpace(post[k])
    ensures StripRight(s + post) == StripRight(s)
    decreases |post|
  {
    if post == [] {
      assert s + post == s;
    } else {
      var init := post[..|post| - 1];
      assert (s + post)[..|s + post| - 1] == s + init;
      StripRightPadded(s, init);
    }
  }

  /** `lstrip` of a concatenation: a left part that is all whitespace
      vanishes; otherwise the right part is kept whole. */
  lemma {:induction false} StripLeftAppend(s: string, u: string)
    ensures StripLeft(s + u) == if StripLeft(s) == [] then StripLeft(u) else StripLeft(s) + u
    decreases |s|
  {
    if s == [] {
      assert s + u == u;
    } else if IsSpace(s[0]) {
      assert (s + u)[1..] == s[1..] + u;
      StripLeftAppend(s[1..], u);
    }
  }

  /** Whitespace around a string does not change what `strip` gives. */
  lemma StripPadded(pre: string, s: string, post: string)
    requires forall k :: 0 <= k < |pre| ==> IsSpace(pre[k])
    requires forall k :: 0 <= k < |post| ==> IsSpace(post[k])
    ensures Strip(pre + s + post) == Strip(s)
  {
    assert pre + s + post == pre + (s + post);
    StripLeftPadded(pre, s + post);
    StripLeftAppend(s, post);
    if StripLeft(s) == [] {
      StripLeftPadded(post, []);
      assert post + [] == post;
    } else {
      StripRightPadded(StripLeft(s), post);
    }
  }

  /** A string with no whitespace at either end is its own `strip`. */
  lemma StripStripped(t: string)
    requires t == [] || (!IsSpace(t[0]) && !IsSpace(t[|t| - 1]))
    ensures Strip(t) == t
  {
  }

  /** `strip` gives a string it leaves alone. */
  lemma StripTwice(s: string)
    ensures Strip(Strip(s)) == Strip(s)
  {
    StripStripped(Strip(s));
  }

  /** Lower-casing never moves whitespace, so it commutes with `lstrip`. */
  lemma {:induction false} StripLeftLower(s: string)
    ensures StripLeft(Lower(s)) == Lower(StripLeft(s))
    decreases |s|
  {
    if s != [] {
      assert Lower(s)[0] == LowerChar(s[0]);
      if IsSpace(s[0]) {
        assert Lower(s)[1..] == Lower(s[1..]);
        StripLeftLower(s[1..]);
      }
    }
  }

  /** ... and with `rstrip`. */
  lemma {:induction false} StripRightLower(s: string)
    ensures StripRight(Lower(s)) == Lower(StripRight(s))
    decreases |s|
  {
    if s != [] {
      if IsSpace(s[|s| - 1]) {
        StripRightLower(s[..|s| - 1]);
        StripRightLowerSpace(s);
      } else {
        StripRightLowerKept(s);
      }
    }
  }

  /** A trailing space is stripped from the text and from its lower-cased
      form alike. */
  lemma StripRightLowerSpace(s: string)
    requires s != [] && IsSpace(s[|s| - 1])
    requires StripRight(Lower(s[..|s| - 1])) == Lower(StripRight(s[..|s| - 1]))
    ensures StripRight(Lower(s)) == Lower(StripRight(s))
  {
    var n := |s| - 1;
    var ls := Lower(s);
    LowerCharSpace(s[n]);
    assert |ls| == |s| && IsSpace(ls[n]);
    assert StripRight(s) == StripRight(s[..n]);
    LowerPrefix(s, n);
    calc {
      StripRight(ls);
      StripRight(ls[..n]);
      StripRight(Lower(s[..n]));
      Lower(StripRight(s[..n]));
    }
  }

  /** Text that does not end in a space is kept whole by the strip, and
      so is its lower-cased form. */
  lemma StripRightLowerKept(s: string)
    requires s != [] && !IsSpace(s[|s| - 1])
    ensures StripRight(Lower(s)) == Lower(StripRight(s))
  {
    var n := |s| - 1;
    var ls := Lower(s);
    LowerCharSpace(s[n]);
    assert |ls| == |s| && ls[n] == LowerChar(s[n]);
  }

  /** Lower-casing keeps a character a space, or not a space. */
  lemma LowerCharSpace(c: char)
    ensures IsSpace(LowerChar(c)) <==> IsSpace(c)
  {
  }

  /** Lower-casing commutes with taking a prefix. */
  lemma LowerPrefix(s: string, n: nat)
    requires n <= |s|
    ensures Lower(s)[..n] == Lower(s[..n])
  {
    forall k | 0 <= k < n
      ensures Lower(s)[..n][k] == Lower(s[..n])[k]
    {
      assert s[..n][k] == s[k];
    }
  }

  /** `s.lower().strip() == s.strip().lower()`. */
  lemma StripLower(s: string)
    ensures Strip(Lower(s)) == Lower(Strip(s))
  {
    StripLeftLower(s);
    StripRightLower(StripLeft(s));
  }

  /** Upper-casing forgets an earlier lower-casing. */
  lemma UpperOfLower(s: string)
    ensures Upper(Lower(s)) == Upper(s)
  {
    assert forall k :: 0 <= k < |s| ==> Upper(Lower(s))[k] == UpperChar(LowerChar(s[k]));
  }

  /** Lower-casing forgets an earlier upper-casing. */
  lemma LowerOfUpper(s: string)
    ensures Lower(Upper(s)) == Lower(s)
  {
    assert forall k :: 0 <= k < |s| ==> Lower(Upper(s))[k] == LowerChar(UpperChar(s[k]));
  }

  /** Upper-casing twice is upper-casing once. */
  lemma UpperTwice(s: string)
    ensures Upper(Upper(s)) == Upper(s)
  {
    assert forall k :: 0 <= k < |s| ==> Upper(Upper(s))[k] == UpperChar(UpperChar(s[k]));
  }

  /** `w` sits in `s` at offset `k`. */
  predicate OccursAt(s: string, w: string, k: int) {
    0 <= k && k + |w| <= |s| && s[k..k + |w|] == w
  }

  /** `w in s` for strings: `w` occurs in `s` as a contiguous block. */
  predicate Contains(s: string, w: string) {
    exists k | 0 <= k <= |s| - |w| :: OccursAt(s, w, k)
  }

  /** `s.startswith(p)`. */
  predicate StartsWith(s: string, p: string) {
    p <= s
  }

  /** `sep.join(parts)`. */
  function Join(sep: string, parts: seq<string>): string
    decreases |parts|
  {
    if parts == [] then ""
    else if |parts| == 1 then parts[0]
    else parts[0] + sep + Join(sep, parts[1..])
  }

  /** `s[:n]`. */
  function Truncate(s: string, n: nat): (t: string)
    ensures |t| <= n && t <= s
    ensures |s| <= n ==> t == s
    ensures |s| > n ==> |t| == n
  {
    if |s| <= n then s else s[..n]
  }

  // ---------------------------------------------------- exception texts

  /** A character of a class name as a raise's text begins with it. */
  predicate IsNameChar(c: char) {
    'a' <= c <= 'z' || 'A' <= c <= 'Z' || '0' <= c <= '9' || c == '_' || c == '.'
  }

  predicate IsClassName(s: string) {
    |s| > 0 && forall i :: 0 <= i < |s| ==> IsNameChar(s[i])
  }

  /** The length of the longest prefix of `s` made of name characters. */
  function NamePrefix(s: string): (k: nat)
    ensures k <= |s|
    ensures forall i :: 0 <= i < k ==> IsNameChar(s[i])
    ensures k < |s| ==> !IsNameChar(s[k])
    decreases |s|
  {
    if s == [] || !IsNameChar(s[0]) then 0 else 1 + NamePrefix(s[1..])
  }

  /** `str(e)`: a raise is written `Class: message`, and its `str` is the
      message alone. A text that does not begin with a class name and
      ": " is its own message. */
  function ExceptionStr(e: string): (m: string)
    ensures |m| <= |e| && m == e[|e| - |m|..]
  {
    var k := NamePrefix(e);
    if 0 < k && k + 2 <= |e| && e[k] == ':' && e[k + 1] == ' ' then e[k + 2..] else e
  }

  /** `str()` of a raise drops exactly its class. */
  lemma ExceptionStrOf(cls: string, msg: string)
    requires IsClassName(cls)
    ensures ExceptionStr(cls + ": " + msg) == msg
  {
    var e := cls + ": " + msg;
    assert e[..|cls|] == cls && e[|cls|] == ':' && e[|cls| + 1] == ' ';
    assert e[|cls| + 2..] == msg;
  }

  /** A text that does not start with a name character is its own `str`. */
  lemma ExceptionStrPlain(e: string)
    requires e == [] || !IsNameChar(e[0])
    ensures ExceptionStr(e) == e
  {
  }

  /** A block found inside a piece is found inside any text around it. */
  lemma ContainsWithin(s: string, w: string, pre: string, post: string)
    requires Contains(s, w)
    ensures Contains(pre + s + post, w)
  {
    var k :| 0 <= k <= |s| - |w| && OccursAt(s, w, k);
    var t := pre + s + post;
    assert t[|pre| + k..|pre| + k + |w|] == s[k..k + |w|];
    assert OccursAt(t, w, |pre| + k);
  }

  // ------------------------------------------------ first-seen collections

  predicate NoDup<T(==)>(s: seq<T>) {
    forall j, k :: 0 <= j < k < |s| ==> s[j] != s[k]
  }

  /** `if u not in s: s.append(u)`. */
  function AppendUnique<T(==)>(s: seq<T>, u: T): seq<T> {
    if u in s then s else s + [u]
  }

  /** Appending every element of `us` in turn, skipping ones already held. */
  function AppendAll<T(==)>(s: seq<T>, us: seq<T>): seq<T>
    decreases |us|
  {
    if us == [] then s else AppendUnique(AppendAll(s, us[..|us| - 1]), us[|us| - 1])
  }

  lemma {:induction false} AppendAllKeeps<T>(s: seq<T>, us: seq<T>)
    ensures NoDup(s) ==> NoDup(AppendAll(s, us))
    ensures forall x :: x in AppendAll(s, us) <==> x in s || x in us
    ensures s <= AppendAll(s, us)
    decreases |us|
  {
    if us != [] {
      var init := us[..|us| - 1];
      AppendAllKeeps(s, init);
      assert us == init + [us[|us| - 1]];
      forall x ensures x in us <==> x in init || x == us[|us| - 1] {
      }
    }
  }

  /** Appending `us` then `vs` is appending `us + vs`. */
  lemma {:induction false} AppendAllConcat<T>(s: seq<T>, us: seq<T>, vs: seq<T>)
    ensures AppendAll(AppendAll(s, us), vs) == AppendAll(s, us + vs)
    decreases |vs|
  {
    if vs == [] {
      assert us + vs == us;
    } else {
      var init := vs[..|vs| - 1];
      AppendAllConcat(s, us, init);
      assert (us + vs)[..|us + vs| - 1] == us + init;
    }
  }

  /** Appending elements that are all already present changes nothing. */
  lemma {:induction false} AppendAllPresent<T>(s: seq<T>, us: seq<T>)
    requires forall x :: x in us ==> x in s
    ensures AppendAll(s, us) == s
    decreases |us|
  {
    if us != [] {
      AppendAllPresent(s, us[..|us| - 1]);
      assert us[|us| - 1] in us;
    }
  }
}
