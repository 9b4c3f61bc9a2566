/**
 * Values and helpers shared by the models of the dashboard's components:
 * HTTP replies, the JavaScript values the forms carry, JavaScript's string
 * conversion and truthiness, the text operations the components call
 * (ASCII `toLowerCase`, `includes`, `trim`, `split(...)[0]`, the slug
 * rewrite `replace(/\s+/g, "-")`) and `Array.prototype.slice`.
 */
module Common {

  datatype Option<+T> = None | Some(value: T)

  /** A JavaScript value, restricted to the shapes the components store. */
  datatype Value =
    | Undefined
    | Null
    | Str(s: string)
    | Num(n: int)
    | File(name: string)   // a File chosen in an <input type="file">
    | Ids(ids: seq<int>)   // an array of numeric ids (tags)

  /** JavaScript truthiness: "", 0, null and undefined are falsy; objects and arrays are truthy. */
  predicate Truthy(v: Value)
  {
    match v
    case Undefined => false
    case Null => false
    case Str(s) => s != ""
    case Num(n) => n != 0
    case File(_) => true
    case Ids(_) => true
  }

  /** `a || b` */
  function Or(a: Value, b: Value): Value
  {
    if Truthy(a) then a else b
  }

  /** What `error.response?.data` and `error.message` hold when a call fails. */
  datatype HttpError = HttpError(detail: Value, message: Value, jsMessage: Value)

  /** The outcome of one HTTP call: its response body, or the error it was rejected with. */
  datatype Reply<+T> = Success(data: T) | Failure(error: HttpError)

  /**
   * A list endpoint's body: a bare array, or an object that may carry the
   * array under `results` (paginated) or `data`.
   */
  datatype ListBody<+T> = ArrayBody(items: seq<T>) | ObjectBody(results: Option<seq<T>>, data: Option<seq<T>>)

  /** `Array.isArray(body) ? body : []` */
  function ArrayOrEmpty<T>(body: ListBody<T>): (r: seq<T>)
    ensures body.ArrayBody? ==> r == body.items
    ensures !body.ArrayBody? ==> r == []
  {
    if body.ArrayBody? then body.items else []
  }

  // ---------------------------------------------------------------- numbers

  function DigitChar(d: nat): (c: char)
    requires d < 10
    ensures '0' <= c <= '9'
  {
    "0123456789"[d]
  }

  /** The decimal numeral of a natural number, without leading zeros. */
  function NatString(n: nat): (s: string)
    ensures |s| > 0
    ensures forall i :: 0 <= i < |s| ==> '0' <= s[i] <= '9'
    decreases n
  {
    if n < 10 then [DigitChar(n)] else NatString(n / 10) + [DigitChar(n % 10)]
  }

  /** `String(n)` for an integer `n`. */
  function DecimalString(n: int): (s: string)
    ensures |s| > 0
    ensures forall i :: 0 <= i < |s| ==> '0' <= s[i] <= '9' || s[i] == '-'
  {
    if n < 0 then "-" + NatString(-n) else NatString(n)
  }

  /** `ids.join(",")` as `String(array)` produces it. */
  function JoinIds(ids: seq<int>): string
  {
    if ids == [] then ""
    else if |ids| == 1 then DecimalString(ids[0])
    else DecimalString(ids[0]) + "," + JoinIds(ids[1..])
  }

  /** JavaScript's `String(v)`. */
  function JsString(v: Value): string
  {
    match v
    case Undefined => "undefined"
    case Null => "null"
    case Str(s) => s
    case Num(n) => DecimalString(n)
    case File(_) => "[object File]"
    case Ids(ids) => JoinIds(ids)
  }

  // ---------------------------------------------------------------- text

  /** The characters JavaScript's `\s` and `trim` treat as white space. */
  predicate IsJsSpace(c: char)
  {
    c == ' ' || c == '\t' || c == '\n' || c == '\r' || c == '\U{B}' || c == '\U{C}'
    || c == '\U{A0}' || c == '\U{1680}' || ('\U{2000}' <= c <= '\U{200A}')
    || c == '\U{2028}' || c == '\U{2029}' || c == '\U{202F}' || c == '\U{205F}'
    || c == '\U{3000}' || c == '\U{FEFF}'
  }

  predicate NoSpace(s: string)
  {
    forall i :: 0 <= i < |s| ==> !IsJsSpace(s[i])
  }

  predicate AllSpace(s: string)
  {
    forall i :: 0 <= i < |s| ==> IsJsSpace(s[i])
  }

  function LowerChar(c: char): (d: char)
    ensures !('A' <= d <= 'Z')
    ensures IsJsSpace(d) <==> IsJsSpace(c)
  {
    if 'A' <= c <= 'Z' then (c as int + 32) as char else c
  }

  /** `toLowerCase`, on the ASCII letters only. */
  function Lower(s: string): (r: string)
    ensures |r| == |s|
    ensures forall i :: 0 <= i < |s| ==> r[i] == LowerChar(s[i])
  {
    if s == [] then [] else [LowerChar(s[0])] + Lower(s[1..])
  }

  /** `s.includes(t)`: `t` occurs in `s` as a contiguous piece. */
  predicate Includes(s: string, t: string)
    decreases |s|
  {
    t <= s || (|s| > 0 && Includes(s[1..], t))
  }

  function TrimStart(s: string): (r: string)
    ensures r == [] || !IsJsSpace(r[0])
    ensures |r| <= |s| && r == s[|s| - |r|..]
    ensures AllSpace(s[..|s| - |r|])
  {
    if s != [] && IsJsSpace(s[0]) then TrimStart(s[1..]) else s
  }

  function TrimEnd(s: string): (r: string)
    ensures r == [] || !IsJsSpace(r[|r| - 1])
    ensures |r| <= |s| && r == s[..|r|]
    ensures AllSpace(s[|r|..])
  {
    if s != [] && IsJsSpace(s[|s| - 1]) then TrimEnd(s[..|s| - 1]) else s
  }

  /** `s.trim()` */
  function Trim(s: string): string
  {
    TrimEnd(TrimStart(s))
  }

  /** `!s.trim()` holds exactly of the strings made only of white space. */
  lemma TrimEmptyIffAllSpace(s: string)
    ensures Trim(s) == "" <==> AllSpace(s)
  {
    var t := TrimStart(s);
    if Trim(s) == "" {
      assert AllSpace(s[..|s| - |t|]);
      assert AllSpace(t[|TrimEnd(t)|..]);
      assert t == t[|TrimEnd(t)|..];
      forall i | 0 <= i < |s| ensures IsJsSpace(s[i]) {
        if i < |s| - |t| {
          assert s[i] == s[..|s| - |t|][i];
        } else {
          assert s[i] == t[i - (|s| - |t|)];
        }
      }
    } else {
      var r := Trim(s);
      assert r == t[..|r|];
      assert r[0] == s[|s| - |t|];
    }
  }

  /** The text before the first occurrence of `c`: `s.split(c)[0]`. */
  function BeforeFirst(s: string, c: char): (r: string)
    ensures r <= s
    ensures c !in r
    ensures r == s || s[|r|] == c
  {
    if s == [] then []
    else if s[0] == c then []
    else [s[0]] + BeforeFirst(s[1..], c)
  }

  /** Drops the leading run of white space. */
  function DropSpaceRun(s: string): (r: string)
    ensures |r| <= |s|
    ensures r == [] || !IsJsSpace(r[0])
    decreases |s|
  {
    if s != [] && IsJsSpace(s[0]) then DropSpaceRun(s[1..]) else s
  }

  /** `s.replace(/\s+/g, "-")`: every maximal run of white space becomes one "-". */
  function DashSpaceRuns(s: string): string
    decreases |s|
  {
    if s == [] then []
    else if IsJsSpace(s[0]) then "-" + DashSpaceRuns(DropSpaceRun(s[1..]))
    else [s[0]] + DashSpaceRuns(s[1..])
  }

  /** The slug the forms send for a new category: lower case, white-space runs turned into "-". */
  function Slug(s: string): string
  {
    DashSpaceRuns(Lower(s))
  }

  predicate NoUpper(s: string)
  {
    forall i :: 0 <= i < |s| ==> !('A' <= s[i] <= 'Z')
  }

  lemma {:induction false} DashSpaceRunsNoSpace(s: string)
    ensures NoSpace(DashSpaceRuns(s))
    decreases |s|
  {
    if s == [] {
    } else if IsJsSpace(s[0]) {
      var rest := DropSpaceRun(s[1..]);
      DashSpaceRunsNoSpace(rest);
      assert DashSpaceRuns(s) == "-" + DashSpaceRuns(rest);
    } else {
      DashSpaceRunsNoSpace(s[1..]);
      assert DashSpaceRuns(s) == [s[0]] + DashSpaceRuns(s[1..]);
    }
  }

  lemma {:induction false} DashSpaceRunsNoUpper(s: string)
    requires NoUpper(s)
    ensures NoUpper(DashSpaceRuns(s))
    decreases |s|
  {
    if s == [] {
    } else if IsJsSpace(s[0]) {
      var rest := DropSpaceRun(s[1..]);
      DropSpaceRunSuffix(s[1..]);
      assert NoUpper(rest) by {
        forall i | 0 <= i < |rest| ensures !('A' <= rest[i] <= 'Z') {
          assert rest[i] == s[1..][|s[1..]| - |rest| + i];
        }
      }
      DashSpaceRunsNoUpper(rest);
      assert DashSpaceRuns(s) == "-" + DashSpaceRuns(rest);
    } else {
      assert NoUpper(s[1..]) by {
        forall i | 0 <= i < |s[1..]| ensures !('A' <= s[1..][i] <= 'Z') {
          assert s[1..][i] == s[i + 1];
        }
      }
      DashSpaceRunsNoUpper(s[1..]);
      assert DashSpaceRuns(s) == [s[0]] + DashSpaceRuns(s[1..]);
    }
  }

  lemma {:induction false} DashSpaceRunsShape(s: string)
    ensures NoSpace(s) ==> DashSpaceRuns(s) == s
    ensures |DashSpaceRuns(s)| <= |s|
    decreases |s|
  {
    if s == [] {
    } else if IsJsSpace(s[0]) {
      DashSpaceRunsShape(DropSpaceRun(s[1..]));
    } else {
      DashSpaceRunsShape(s[1..]);
      assert NoSpace(s) ==> NoSpace(s[1..]) by {
        if NoSpace(s) {
          forall i | 0 <= i < |s[1..]| ensures !IsJsSpace(s[1..][i]) {
            assert s[1..][i] == s[i + 1];
          }
        }
      }
      assert s == [s[0]] + s[1..];
    }
  }

  lemma {:induction false} DropSpaceRunSuffix(s: string)
    ensures DropSpaceRun(s) == s[|s| - |DropSpaceRun(s)|..]
    decreases |s|
  {
    if s != [] && IsJsSpace(s[0]) {
      DropSpaceRunSuffix(s[1..]);
    }
  }

  /** Dropping the white space at the front of `x + y` stays inside `x` when `x` has a character that is not white space. */
  lemma {:induction false} DropSpaceRunAppend(x: string, y: string)
    requires !AllSpace(x)
    ensures DropSpaceRun(x + y) == DropSpaceRun(x) + y
    decreases |x|
  {
    assert x != [];
    if IsJsSpace(x[0]) {
      assert !AllSpace(x[1..]) by {
        var i :| 0 <= i < |x| && !IsJsSpace(x[i]);
        assert x[1..][i - 1] == x[i];
      }
      assert (x + y)[1..] == x[1..] + y;
      DropSpaceRunAppend(x[1..], y);
    }
  }

  /** A run made only of white space is dropped whole, up to the first character that is not. */
  lemma {:induction false} DropSpaceRunAll(w: string, b: string)
    requires AllSpace(w)
    requires b == [] || !IsJsSpace(b[0])
    ensures DropSpaceRun(w + b) == b
    decreases |w|
  {
    if w == [] {
      assert w + b == b;
    } else {
      assert (w + b)[1..] == w[1..] + b;
      assert AllSpace(w[1..]) by {
        forall i | 0 <= i < |w[1..]| ensures IsJsSpace(w[1..][i]) {
          assert w[1..][i] == w[i + 1];
        }
      }
      DropSpaceRunAll(w[1..], b);
    }
  }

  /**
   * `replace(/\s+/g, "-")` turns a maximal run of white space into exactly
   * one "-" and rewrites what lies before and after it on its own: the
   * characters around the run are kept in order.
   */
  lemma DashSpaceRunsSplit(a: string, w: string, b: string)
    requires AllSpace(w) && w != []
    requires a == [] || !IsJsSpace(a[|a| - 1])
    requires b == [] || !IsJsSpace(b[0])
    ensures DashSpaceRuns(a + w + b) == DashSpaceRuns(a) + "-" + DashSpaceRuns(b)
  {
    var wb := w + b;
    assert a + w + b == a + wb;
    DashSpaceRunsAppend(a, wb);
    SplitAtRun(w, b);
    PrefixConcat(DashSpaceRuns(a), "-", DashSpaceRuns(b), DashSpaceRuns(wb));
  }

  /** Text that does not end inside a run of white space is rewritten independently of what follows it. */
  lemma {:induction false} DashSpaceRunsAppend(a: string, y: string)
    requires a == [] || !IsJsSpace(a[|a| - 1])
    ensures DashSpaceRuns(a + y) == DashSpaceRuns(a) + DashSpaceRuns(y)
    decreases |a|
  {
    if a == [] {
      assert a + y == y;
    } else if IsJsSpace(a[0]) {
      var d := SplitLeadingSpace(a, y);
      DashSpaceRunsAppend(d, y);
      PrefixConcat("-", DashSpaceRuns(d), DashSpaceRuns(y), DashSpaceRuns(d + y));
    } else {
      SplitLeadingChar(a, y);
      var t := a[1..];
      assert t == [] || !IsJsSpace(t[|t| - 1]) by {
        if t != [] {
          assert t[|t| - 1] == a[|a| - 1];
        }
      }
      DashSpaceRunsAppend(t, y);
      PrefixConcat([a[0]], DashSpaceRuns(t), DashSpaceRuns(y), DashSpaceRuns(t + y));
    }
  }

  /**
   * Regrouping a concatenation, stated over plain strings so that the
   * rewrite steps above need not unfold `DashSpaceRuns` again.
   */
  lemma PrefixConcat(h: string, x: string, y: string, xy: string)
    requires xy == x + y
    ensures h + xy == (h + x) + y
  {
  }

  /** A run at the front becomes one "-" before the rest. */
  lemma SplitAtRun(w: string, b: string)
    requires AllSpace(w) && w != []
    requires b == [] || !IsJsSpace(b[0])
    ensures DashSpaceRuns(w + b) == "-" + DashSpaceRuns(b)
  {
    var s := w + b;
    assert IsJsSpace(s[0]);
    assert s[1..] == w[1..] + b;
    assert AllSpace(w[1..]) by {
      forall i | 0 <= i < |w[1..]| ensures IsJsSpace(w[1..][i]) {
        assert w[1..][i] == w[i + 1];
      }
    }
    DropSpaceRunAll(w[1..], b);
    assert DashSpaceRuns(s) == "-" + DashSpaceRuns(DropSpaceRun(s[1..]));
  }

  /**
   * Text starting with white space and ending with a character that is not:
   * its leading run ends inside it, leaving a shorter text `d` that still
   * ends with that character.
   */
  lemma SplitLeadingSpace(a: string, y: string) returns (d: string)
    requires a != [] && IsJsSpace(a[0]) && !IsJsSpace(a[|a| - 1])
    ensures |d| < |a| && d != [] && d[|d| - 1] == a[|a| - 1]
    ensures DashSpaceRuns(a) == "-" + DashSpaceRuns(d)
    ensures DashSpaceRuns(a + y) == "-" + DashSpaceRuns(d + y)
  {
    var t := a[1..];
    assert t[|t| - 1] == a[|a| - 1];
    assert !AllSpace(t);
    assert (a + y)[1..] == t + y;
    DropSpaceRunAppend(t, y);
    d := DropSpaceRun(t);
    DropSpaceRunSuffix(t);
    if d == [] {
      DropSpaceRunEmpty(t);
      assert false;
    }
    assert d[|d| - 1] == t[|t| - 1];
  }

  /** Text starting with a character that is not white space keeps it in front. */
  lemma SplitLeadingChar(a: string, y: string)
    requires a != [] && !IsJsSpace(a[0])
    ensures DashSpaceRuns(a) == [a[0]] + DashSpaceRuns(a[1..])
    ensures DashSpaceRuns(a + y) == [a[0]] + DashSpaceRuns(a[1..] + y)
  {
    assert (a + y)[0] == a[0];
    assert (a + y)[1..] == a[1..] + y;
  }

  /** Dropping leading white space leaves nothing only when the text was all white space. */
  lemma {:induction false} DropSpaceRunEmpty(s: string)
    requires DropSpaceRun(s) == []
    ensures AllSpace(s)
    decreases |s|
  {
    if s != [] {
      assert IsJsSpace(s[0]);
      DropSpaceRunEmpty(s[1..]);
      forall i | 0 <= i < |s| ensures IsJsSpace(s[i]) {
        if i > 0 {
          assert s[i] == s[1..][i - 1];
        }
      }
    }
  }

  /** Lower-casing works character by character, so it distributes over concatenation. */
  lemma LowerAppend(a: string, b: string)
    ensures Lower(a + b) == Lower(a) + Lower(b)
  {
    var l, r := Lower(a + b), Lower(a) + Lower(b);
    assert |l| == |r|;
    forall i | 0 <= i < |l| ensures l[i] == r[i] {
      if i < |a| {
        assert (a + b)[i] == a[i];
      } else {
        assert (a + b)[i] == b[i - |a|];
      }
    }
  }

  /**
   * In the slug a maximal run of white space becomes exactly one "-",
   * with the lower-cased text before and after it slugged on its own.
   */
  lemma SlugSplit(a: string, w: string, b: string)
    requires AllSpace(w) && w != []
    requires a == [] || !IsJsSpace(a[|a| - 1])
    requires b == [] || !IsJsSpace(b[0])
    ensures Slug(a + w + b) == Slug(a) + "-" + Slug(b)
  {
    LowerAppend(a, w);
    LowerAppend(a + w, b);
    var la, lw, lb := Lower(a), Lower(w), Lower(b);
    assert AllSpace(lw);
    assert la == [] || !IsJsSpace(la[|la| - 1]);
    assert lb == [] || !IsJsSpace(lb[0]);
    DashSpaceRunsSplit(la, lw, lb);
  }

  /**
   * The slug has no white space and no upper-case ASCII letter, is no longer
   * than its text, and is just the lower-cased text when that has no white space.
   */
  lemma SlugFacts(s: string)
    ensures NoSpace(Slug(s))
    ensures NoUpper(Slug(s))
    ensures |Slug(s)| <= |s|
    ensures NoSpace(s) ==> Slug(s) == Lower(s)
  {
    DashSpaceRunsNoSpace(Lower(s));
    DashSpaceRunsNoUpper(Lower(s));
    DashSpaceRunsShape(Lower(s));
    assert NoSpace(s) ==> NoSpace(Lower(s));
  }

  // ---------------------------------------------------------------- arrays

  /** `a` is `b` with some elements left out, the rest in their original order. */
  predicate SubseqOf<T(==)>(a: seq<T>, b: seq<T>)
    decreases |b|
  {
    if a == [] then true
    else if b == [] then false
    else if a[0] == b[0] then SubseqOf(a[1..], b[1..])
    else SubseqOf(a, b[1..])
  }

  /** Dropping the head of `b` keeps a subsequence of the rest a subsequence of `b`. */
  lemma {:induction false} SubseqSkip<T>(a: seq<T>, b: seq<T>)
    requires b != [] && SubseqOf(a, b[1..])
    ensures SubseqOf(a, b)
    decreases |b|, 0
  {
    if a != [] && a[0] == b[0] {
      SubseqTail(a, b[1..]);
    }
  }

  lemma {:induction false} SubseqTail<T>(a: seq<T>, b: seq<T>)
    requires a != [] && SubseqOf(a, b)
    ensures SubseqOf(a[1..], b)
    decreases |b|, 1
  {
    if a[0] == b[0] {
      if a[1..] != [] {
        SubseqSkip(a[1..], b);
      }
    } else {
      SubseqTail(a, b[1..]);
      if a[1..] != [] {
        SubseqSkip(a[1..], b);
      }
    }
  }

  /** A category as the select boxes list it: the option value is `String(id)`. */
  datatype CategoryOption = CategoryOption(id: Value, title: string)

  /** A category row as the categories endpoint returns it. */
  datatype DbCategory = DbCategory(id: int, title: string)


  /** The index `Array.prototype.slice` derives from a relative position. */
  function SliceIndex(rel: int, len: nat): (k: nat)
    ensures k <= len
  {
    if rel < 0 then (if len + rel < 0 then 0 else len + rel)
    else if rel > len then len else rel
  }

  /** `s.slice(start, end)` */
  function JsSlice<T>(s: seq<T>, start: int, end: int): seq<T>
  {
    var from, to := SliceIndex(start, |s|), SliceIndex(end, |s|);
    if from < to then s[from..to] else []
  }
}
