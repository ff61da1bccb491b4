/**
 * The helpers of utils.py: the bind-port allocator, the `link` rule, the
 * PATH merge of `prepare_env` and the JSON comparison used to detect rule
 * changes.
 */
module Utils {
  import opened PyJson

  // ------------------------------------------------------ bind-port allocator

  /** `int(text)` where an unparsable text raises ValueError. */
  function IntOfText(text: string): (r: Outcome<Option<int>>)
    ensures r.Raise? ==> r.exc == ValueError
  {
    match ParseInt(text)
    case Some(n) => Ok(Some(n))
    case None => Raise(ValueError)
  }

  /** Zero-padding of `str(p)` to four characters, as the allocator builds it. */
  function Padded(p: int): string
  {
    Repeat('0', 4 - |IntToDec(p)|) + IntToDec(p)
  }

  /** The allocator once the local port is an int: the text the source builds
      from the prefix and the port, converted back with `int()`; None asks the
      cloud for a random port. */
  function BindPortOf(p: int, prefix: nat): (r: Outcome<Option<int>>)
    ensures p >= 10000 ==> r == Ok(None)
    ensures r.Raise? ==> r.exc == ValueError
  {
    if p >= 10000 then Ok(None)
    else if p < 1000 then IntOfText(NatToDec(prefix) + Padded(p))
    else if 1000 <= p <= 9999 then IntOfText(NatToDec(prefix) + IntToDec(p))
    else Ok(None)
  }

  /** `generate_bind_port(local_port, prefix)`: a local port that `int()`
      rejects with ValueError asks for a random port; a TypeError (None, a
      list, a dict) is not caught. */
  function GenerateBindPort(localPort: Json, prefix: nat): (r: Outcome<Option<int>>)
    ensures r.Raise? ==> r.exc == TypeError || (r.exc == ValueError && PyInt(localPort).Ok?)
    ensures PyInt(localPort) == Raise(ValueError) ==> r == Ok(None)
  {
    match PyInt(localPort)
    case Ok(p) => BindPortOf(p, prefix)
    case Raise(e) => if e == ValueError then Ok(None) else Raise(e)
  }

  /** For 0 <= p < 1000 the text is the prefix followed by p padded to four
      digits, and its value is prefix * 10000 + p (22 -> 30022, 802 -> 30802). */
  lemma BindPortPadded(p: int, prefix: nat)
    requires 0 <= p < 1000
    ensures BindPortOf(p, prefix) == Ok(Some(prefix * 10000 + p))
  {
    PaddedTextValue(p, prefix);
  }

  lemma PaddedTextValue(p: int, prefix: nat)
    requires 0 <= p < 1000
    ensures IntOfText(NatToDec(prefix) + Padded(p)) == Ok(Some(prefix * 10000 + p))
  {
    var q := Padded(p);
    var s := NatToDec(prefix) + q;
    assert |s| > 0 && AllDigits(s) && DecValue(s) == prefix * 10000 + p by {
      PaddedDigits(p);
      Concat(prefix, q);
    }
    IntOfDigits(s);
  }

  lemma PaddedDigits(p: int)
    requires 0 <= p < 1000
    ensures |Padded(p)| == 4 && AllDigits(Padded(p)) && DecValue(Padded(p)) == p
  {
    var d := NatToDec(p);
    NatToDecLength(p, 3);
    NatToDecValue(p);
    Pow10Of3();
    var z := Repeat('0', 4 - |d|);
    DecValueOfZeros(z);
    DecValueAppend(z, d);
  }

  /** For 1000 <= p <= 9999 the prefix is written directly before p (8080 -> 38080). */
  lemma BindPortFourDigits(p: int, prefix: nat)
    requires 1000 <= p <= 9999
    ensures BindPortOf(p, prefix) == Ok(Some(prefix * 10000 + p))
  {
    FourDigitTextValue(p, prefix);
  }

  lemma FourDigitTextValue(p: nat, prefix: nat)
    requires 1000 <= p <= 9999
    ensures IntOfText(NatToDec(prefix) + IntToDec(p)) == Ok(Some(prefix * 10000 + p))
  {
    var d := NatToDec(p);
    var s := NatToDec(prefix) + d;
    assert |s| > 0 && AllDigits(s) && DecValue(s) == prefix * 10000 + p by {
      FourDigits(p);
      Concat(prefix, d);
    }
    IntOfDigits(s);
  }

  lemma FourDigits(p: nat)
    requires 1000 <= p <= 9999
    ensures |NatToDec(p)| == 4 && DecValue(NatToDec(p)) == p
  {
    NatToDecLength(p, 4);
    NatToDecLength(p, 3);
    Pow10Of3();
    Pow10Of4();
    NatToDecValue(p);
  }

  lemma {:induction false} DecValueOfZeros(z: string)
    requires forall k :: 0 <= k < |z| ==> z[k] == '0'
    ensures AllDigits(z) && DecValue(z) == 0
  {
    if z != [] {
      DecValueOfZeros(z[..|z| - 1]);
    }
  }

  /** `str(prefix) + q` for a four-digit q denotes prefix * 10000 + q. */
  lemma Concat(prefix: nat, q: string)
    requires |q| == 4 && AllDigits(q)
    ensures AllDigits(NatToDec(prefix) + q)
    ensures DecValue(NatToDec(prefix) + q) == prefix * 10000 + DecValue(q)
  {
    var a := NatToDec(prefix);
    assert DecValue(a) == prefix by { NatToDecValue(prefix); }
    DecValueAppend(a, q);
    Pow10Of4();
  }

  lemma Pow10Of3()
    ensures Pow10(3) == 1000
  {
    assert Pow10(2) == 100;
  }

  lemma Pow10Of4()
    ensures Pow10(4) == 10000
  {
    Pow10Of3();
  }

  lemma IntOfDigits(s: string)
    requires |s| > 0 && AllDigits(s)
    ensures IntOfText(s) == Ok(Some(DecValue(s)))
  {
    ParseIntOfDigits(s);
  }

  /** A negative port makes the source build a text with '-' inside it
      ("300-5"), which `int()` rejects with an uncaught ValueError. */
  lemma BindPortNegative(p: int, prefix: nat)
    requires p < 0
    ensures BindPortOf(p, prefix) == Raise(ValueError)
  {
    var a := NatToDec(prefix);
    var text := a + Padded(p);
    var k := |a| + |Repeat('0', 4 - |IntToDec(p)|)|;
    assert text[k] == '-';
    NoSignInside(text, k);
  }

  lemma NoSignInside(text: string, k: nat)
    requires 0 < k < |text| && text[k] == '-' && IsDigit(text[0]) && IsDigit(text[|text| - 1])
    ensures ParseInt(text) == None
  {
    StripNoEdgeSpace(text);
    assert !DigitGroups(text);
  }

  /** What `generate_bind_port` returns, stated without the text detour. */
  lemma GenerateBindPortCases(v: Json, prefix: nat)
    ensures PyInt(v) == Raise(ValueError) ==> GenerateBindPort(v, prefix) == Ok(None)
    ensures PyInt(v) == Raise(TypeError) ==> GenerateBindPort(v, prefix) == Raise(TypeError)
    ensures PyInt(v).Ok? && PyInt(v).value < 0 ==> GenerateBindPort(v, prefix) == Raise(ValueError)
    ensures PyInt(v).Ok? && PyInt(v).value >= 10000 ==> GenerateBindPort(v, prefix) == Ok(None)
    ensures PyInt(v).Ok? && 0 <= PyInt(v).value < 10000 ==>
      GenerateBindPort(v, prefix) == Ok(Some(prefix * 10000 + PyInt(v).value))
  {
    match PyInt(v)
    case Ok(p) => BindPortOfCases(p, prefix);
    case Raise(_) =>
  }

  lemma BindPortOfCases(p: int, prefix: nat)
    ensures p < 0 ==> BindPortOf(p, prefix) == Raise(ValueError)
    ensures p >= 10000 ==> BindPortOf(p, prefix) == Ok(None)
    ensures 0 <= p < 10000 ==> BindPortOf(p, prefix) == Ok(Some(prefix * 10000 + p))
  {
    if p < 0 { BindPortNegative(p, prefix); }
    else if p < 1000 { BindPortPadded(p, prefix); }
    else if p < 10000 { BindPortFourDigits(p, prefix); }
  }

  /** Main ports (prefix 3) fall in 30000..39999 and temporary ports (prefix 4)
      in 40000..49999, so the two rule sets never share a deterministic port,
      and within one prefix the allocator is injective on 0..9999. */
  lemma BindPortRangesDisjoint(p: int, q: int)
    requires 0 <= p < 10000 && 0 <= q < 10000
    ensures BindPortOf(p, 3).Ok? && BindPortOf(p, 3).value.Some?
    ensures 30000 <= BindPortOf(p, 3).value.value <= 39999
    ensures BindPortOf(q, 4).Ok? && BindPortOf(q, 4).value.Some?
    ensures 40000 <= BindPortOf(q, 4).value.value <= 49999
    ensures BindPortOf(p, 3) != BindPortOf(q, 4)
  {
    if p < 1000 { BindPortPadded(p, 3); } else { BindPortFourDigits(p, 3); }
    if q < 1000 { BindPortPadded(q, 4); } else { BindPortFourDigits(q, 4); }
  }

  lemma BindPortInjective(p: int, q: int, prefix: nat)
    requires 0 <= p < 10000 && 0 <= q < 10000
    requires BindPortOf(p, prefix) == BindPortOf(q, prefix)
    ensures p == q
  {
    if p < 1000 { BindPortPadded(p, prefix); } else { BindPortFourDigits(p, prefix); }
    if q < 1000 { BindPortPadded(q, prefix); } else { BindPortFourDigits(q, prefix); }
  }

  // ------------------------------------------------------------ link rule

  /** `get_link_value(local_port)`: False only for port 22; a ValueError from
      `int()` counts as True, a TypeError is not caught. */
  function GetLinkValue(localPort: Json): (r: Outcome<bool>)
    ensures r.Raise? <==> PyInt(localPort).Raise? && PyInt(localPort).exc == TypeError
  {
    match PyInt(localPort)
    case Ok(n) => Ok(n != 22)
    case Raise(e) => if e == ValueError then Ok(true) else Raise(e)
  }

  lemma GetLinkValueFalseIff22(v: Json)
    ensures GetLinkValue(v) == Ok(false) <==> PyInt(v) == Ok(22)
    ensures v.JStr? && ParseInt(v.s).None? ==> GetLinkValue(v) == Ok(true)
    ensures GetLinkValue(v).Raise? <==> PyInt(v) == Raise(TypeError)
  {
  }

  // ----------------------------------------------------------- prepare_env

  const DefaultPaths: seq<string> :=
    ["/usr/local/sbin", "/usr/local/bin", "/usr/sbin", "/usr/bin", "/sbin", "/bin"]

  /** `s.split(sep)`: the pieces between separators, [""] for the empty text. */
  function Split(s: string, sep: char): (r: seq<string>)
    ensures |r| >= 1
  {
    if s == [] then [""]
    else
      var rest := Split(s[1..], sep);
      if s[0] == sep then [""] + rest else [[s[0]] + rest[0]] + rest[1..]
  }

  /** `current_path.split(':') if current_path else []`. */
  function PathEntries(path: string): seq<string>
  {
    if path == "" then [] else Split(path, ':')
  }

  /** The first occurrence of every non-empty entry, in order: what the loop of
      `prepare_env` keeps in `unique_paths`. */
  function Dedup(xs: seq<string>): (r: seq<string>)
    ensures |r| <= |xs| && "" !in r
  {
    if xs == [] then []
    else
      var d := Dedup(xs[..|xs| - 1]);
      var x := xs[|xs| - 1];
      if x != "" && x !in d then d + [x] else d
  }

  predicate NoDuplicates(xs: seq<string>)
  {
    forall i, j :: 0 <= i < j < |xs| ==> xs[i] != xs[j]
  }

  /** The merged PATH for a current PATH value. */
  function MergedPath(current: string): string
  {
    Join(":", Dedup(PathEntries(current) + DefaultPaths))
  }

  /** `prepare_env()`: a copy of the environment whose PATH is the current
      entries followed by the six defaults, without duplicates or empty entries. */
  method PrepareEnv(env: map<string, string>) returns (result: map<string, string>)
    ensures result == env["PATH" := MergedPath(if "PATH" in env then env["PATH"] else "")]
    ensures forall p :: p in DefaultPaths ==> p in PathEntries(result["PATH"])
  {
    var currentPath := if "PATH" in env then env["PATH"] else "";
    var pathList := if currentPath != "" then Split(currentPath, ':') else [];
    var allPaths := pathList + DefaultPaths;
    var uniquePaths: seq<string> := [];
    var seen: set<string> := {};
    var i := 0;
    while i < |allPaths|
      invariant 0 <= i <= |allPaths|
      invariant uniquePaths == Dedup(allPaths[..i])
      invariant forall x :: x in seen <==> x in uniquePaths
    {
      var p := allPaths[i];
      assert allPaths[..i + 1][..i] == allPaths[..i] && allPaths[..i + 1][i] == p;
      if p != "" && p !in seen {
        seen := seen + {p};
        uniquePaths := uniquePaths + [p];
      }
      i := i + 1;
    }
    assert allPaths[..i] == allPaths;
    result := env["PATH" := Join(":", uniquePaths)];
    MergedPathHasDefaults(currentPath);
  }

  lemma MergedPathHasDefaults(current: string)
    ensures forall p :: p in DefaultPaths ==> p in PathEntries(MergedPath(current))
  {
    var all := PathEntries(current) + DefaultPaths;
    DedupProperties(all);
    MergedPathEntries(current);
    forall p | p in DefaultPaths ensures p in Dedup(all) {
      assert p in all;
    }
  }

  /** The entries of the merged PATH: no duplicates, no empty entry, and
      exactly the non-empty input entries. */
  lemma {:induction false} DedupProperties(xs: seq<string>)
    ensures NoDuplicates(Dedup(xs))
    ensures forall x :: x in Dedup(xs) <==> x in xs && x != ""
  {
    if xs != [] {
      var init := xs[..|xs| - 1];
      DedupProperties(init);
      assert xs == init + [xs[|xs| - 1]];
    }
  }

  /** Merging keeps first-occurrence order: the merge of a + b starts with the
      merge of a, so entries already on PATH come before any default. */
  lemma {:induction false} DedupPrefix(a: seq<string>, b: seq<string>)
    ensures |Dedup(a)| <= |Dedup(a + b)| && Dedup(a + b)[..|Dedup(a)|] == Dedup(a)
    ensures forall x :: x in Dedup(a + b)[|Dedup(a)|..] ==> x in b && x !in a
  {
    if b == [] {
      assert a + b == a;
      assert Dedup(a)[..|Dedup(a)|] == Dedup(a);
    } else {
      var b', x := b[..|b| - 1], b[|b| - 1];
      assert (a + b)[..|a + b| - 1] == a + b';
      DedupPrefix(a, b');
      DedupProperties(a + b');
      var n, d := |Dedup(a)|, Dedup(a + b');
      if x != "" && x !in d {
        assert Dedup(a + b) == d + [x];
        assert (d + [x])[..n] == d[..n];
        assert (d + [x])[n..] == d[n..] + [x];
      }
    }
  }

  /** The position of the first occurrence of x in xs, or |xs| if there is
      none. */
  function FirstIndex(xs: seq<string>, x: string): (r: nat)
    ensures r <= |xs| && (r < |xs| <==> x in xs)
    ensures r < |xs| ==> xs[r] == x
    ensures forall k :: 0 <= k < r ==> xs[k] != x
  {
    if xs == [] then 0
    else
      var init := xs[..|xs| - 1];
      assert forall k :: 0 <= k < |init| ==> xs[k] == init[k];
      if x in init then FirstIndex(init, x)
      else if xs[|xs| - 1] == x then |xs| - 1
      else |xs|
  }

  /** The merge lists the entries in the order of their first occurrence:
      with DedupProperties this determines the merged PATH completely. */
  lemma {:induction false} DedupFirstOccurrenceOrder(xs: seq<string>)
    ensures forall i, j :: 0 <= i < j < |Dedup(xs)| ==> FirstIndex(xs, Dedup(xs)[i]) < FirstIndex(xs, Dedup(xs)[j])
  {
    if xs != [] {
      var init, x := xs[..|xs| - 1], xs[|xs| - 1];
      var d := Dedup(init);
      DedupFirstOccurrenceOrder(init);
      DedupProperties(init);
      assert forall y :: y in init ==> FirstIndex(xs, y) == FirstIndex(init, y);
      forall i, j | 0 <= i < j < |Dedup(xs)|
        ensures FirstIndex(xs, Dedup(xs)[i]) < FirstIndex(xs, Dedup(xs)[j])
      {
        assert Dedup(xs)[i] == d[i] && d[i] in init;
        if j < |d| {
          assert Dedup(xs)[j] == d[j] && d[j] in init;
        } else {
          assert Dedup(xs) == d + [x] && x !in init;
          assert FirstIndex(xs, x) == |xs| - 1;
        }
      }
    }
  }

  lemma {:induction false} SplitNoSeparator(a: string, sep: char)
    requires sep !in a
    ensures Split(a, sep) == [a]
  {
    if a != [] {
      SplitNoSeparator(a[1..], sep);
      assert [a[0]] + a[1..] == a;
    }
  }

  lemma {:induction false} SplitAtSeparator(a: string, sep: char, rest: string)
    requires sep !in a
    ensures Split(a + [sep] + rest, sep) == [a] + Split(rest, sep)
  {
    if a == [] {
      assert a + [sep] + rest == [sep] + rest;
      assert ([sep] + rest)[1..] == rest;
    } else {
      var s := a + [sep] + rest;
      assert s[1..] == a[1..] + [sep] + rest;
      SplitAtSeparator(a[1..], sep, rest);
      assert [a[0]] + a[1..] == a;
    }
  }

  /** Splitting a join gives the entries back when none contains the separator. */
  lemma {:induction false} SplitJoin(xs: seq<string>, sep: char)
    requires |xs| >= 1 && forall k :: 0 <= k < |xs| ==> sep !in xs[k]
    ensures Split(Join([sep], xs), sep) == xs
  {
    if |xs| == 1 {
      SplitNoSeparator(xs[0], sep);
    } else {
      SplitJoin(xs[1..], sep);
      SplitAtSeparator(xs[0], sep, Join([sep], xs[1..]));
      assert [xs[0]] + xs[1..] == xs;
    }
  }

  lemma {:induction false} SplitPiecesHaveNoSeparator(s: string, sep: char)
    ensures forall k :: 0 <= k < |Split(s, sep)| ==> sep !in Split(s, sep)[k]
  {
    if s != [] {
      SplitPiecesHaveNoSeparator(s[1..], sep);
    }
  }

  /** Reading the merged PATH back gives the merged entries. */
  lemma MergedPathEntries(current: string)
    ensures PathEntries(MergedPath(current)) == Dedup(PathEntries(current) + DefaultPaths)
  {
    var entries := PathEntries(current);
    var all := entries + DefaultPaths;
    var d := Dedup(all);
    DedupProperties(all);
    assert DefaultPaths[0] in all;
    SplitPiecesHaveNoSeparator(current, ':');
    forall k | 0 <= k < |d| ensures ':' !in d[k] {
      assert d[k] in all;
      if d[k] in entries {
        var m :| 0 <= m < |entries| && entries[m] == d[k];
      } else {
        DefaultsHaveNoSeparator();
      }
    }
    SplitJoin(d, ':');
    assert d[0] in d;
    JoinNonEmpty(d);
  }

  lemma DefaultsHaveNoSeparator()
    ensures forall x :: x in DefaultPaths ==> ':' !in x
  {
  }

  lemma JoinNonEmpty(xs: seq<string>)
    requires |xs| >= 1 && xs[0] != ""
    ensures Join(":", xs) != ""
  {
  }

  // ------------------------------------------------------ JSON comparison

  /** `compare_json_content(a, b)`: equal after `json.dumps(..., sort_keys=True)`,
      that is structurally equal with dict members compared by key regardless
      of their order, lists compared position by position. */
  predicate CompareJsonContent(a: Json, b: Json)
    decreases a, 1
  {
    if a.JArr? && b.JArr? then
      |a.items| == |b.items| && forall k :: 0 <= k < |a.items| ==> CompareJsonContent(a.items[k], b.items[k])
    else if a.JObj? && b.JObj? then
      && (forall i :: 0 <= i < |a.fields| ==> MemberMatched(a, i, b))
      && (forall j :: 0 <= j < |b.fields| ==> MemberMatchedBack(a, b, j))
    else a == b
  }

  /** The i-th member of a has a member of b with the same key and an
      equal value. */
  predicate MemberMatched(a: Json, i: nat, b: Json)
    requires a.JObj? && b.JObj? && i < |a.fields|
    decreases a, 0
  {
    exists j :: 0 <= j < |b.fields| && a.fields[i].0 == b.fields[j].0 && CompareJsonContent(a.fields[i].1, b.fields[j].1)
  }

  /** The j-th member of b has a member of a with the same key and an
      equal value. */
  predicate MemberMatchedBack(a: Json, b: Json, j: nat)
    requires a.JObj? && b.JObj? && j < |b.fields|
    decreases a, 0
  {
    exists i :: 0 <= i < |a.fields| && a.fields[i].0 == b.fields[j].0 && CompareJsonContent(a.fields[i].1, b.fields[j].1)
  }

  lemma {:induction false} CompareJsonReflexive(a: Json)
    ensures CompareJsonContent(a, a)
  {
    if a.JArr? {
      forall k | 0 <= k < |a.items| ensures CompareJsonContent(a.items[k], a.items[k]) {
        CompareJsonReflexive(a.items[k]);
      }
    } else if a.JObj? {
      forall i | 0 <= i < |a.fields| ensures MemberMatched(a, i, a) && MemberMatchedBack(a, a, i) {
        CompareJsonReflexive(a.fields[i].1);
      }
    }
  }

  lemma {:induction false} CompareJsonSymmetric(a: Json, b: Json)
    requires CompareJsonContent(a, b)
    ensures CompareJsonContent(b, a)
  {
    if a.JArr? && b.JArr? {
      forall k | 0 <= k < |b.items| ensures CompareJsonContent(b.items[k], a.items[k]) {
        CompareJsonSymmetric(a.items[k], b.items[k]);
      }
    } else if a.JObj? && b.JObj? {
      forall j | 0 <= j < |b.fields| ensures MemberMatched(b, j, a) {
        assert MemberMatchedBack(a, b, j);
        var i :| 0 <= i < |a.fields| && a.fields[i].0 == b.fields[j].0 && CompareJsonContent(a.fields[i].1, b.fields[j].1);
        CompareJsonSymmetric(a.fields[i].1, b.fields[j].1);
      }
      forall i | 0 <= i < |a.fields| ensures MemberMatchedBack(b, a, i) {
        assert MemberMatched(a, i, b);
        var j :| 0 <= j < |b.fields| && a.fields[i].0 == b.fields[j].0 && CompareJsonContent(a.fields[i].1, b.fields[j].1);
        CompareJsonSymmetric(a.fields[i].1, b.fields[j].1);
      }
    }
  }

  lemma {:induction false} CompareJsonTransitive(a: Json, b: Json, c: Json)
    requires CompareJsonContent(a, b) && CompareJsonContent(b, c)
    ensures CompareJsonContent(a, c)
  {
    if a.JArr? && b.JArr? && c.JArr? {
      forall k | 0 <= k < |a.items| ensures CompareJsonContent(a.items[k], c.items[k]) {
        CompareJsonTransitive(a.items[k], b.items[k], c.items[k]);
      }
    } else if a.JObj? && b.JObj? && c.JObj? {
      forall i | 0 <= i < |a.fields| ensures MemberMatched(a, i, c) {
        assert MemberMatched(a, i, b);
        var j :| 0 <= j < |b.fields| && a.fields[i].0 == b.fields[j].0 && CompareJsonContent(a.fields[i].1, b.fields[j].1);
        assert MemberMatched(b, j, c);
        var l :| 0 <= l < |c.fields| && b.fields[j].0 == c.fields[l].0 && CompareJsonContent(b.fields[j].1, c.fields[l].1);
        CompareJsonTransitive(a.fields[i].1, b.fields[j].1, c.fields[l].1);
      }
      forall l | 0 <= l < |c.fields| ensures MemberMatchedBack(a, c, l) {
        assert MemberMatchedBack(b, c, l);
        var j :| 0 <= j < |b.fields| && b.fields[j].0 == c.fields[l].0 && CompareJsonContent(b.fields[j].1, c.fields[l].1);
        assert MemberMatchedBack(a, b, j);
        var i :| 0 <= i < |a.fields| && a.fields[i].0 == b.fields[j].0 && CompareJsonContent(a.fields[i].1, b.fields[j].1);
        CompareJsonTransitive(a.fields[i].1, b.fields[j].1, c.fields[l].1);
      }
    }
  }

  lemma CompareJsonIgnoresKeyOrder(f: seq<(string, Json)>, g: seq<(string, Json)>)
    requires multiset(f) == multiset(g)
    ensures CompareJsonContent(JObj(f), JObj(g))
  {
    var a, b := JObj(f), JObj(g);
    forall i | 0 <= i < |f| ensures MemberMatched(a, i, b) {
      assert f[i] in multiset(g);
      var j :| 0 <= j < |g| && g[j] == f[i];
      CompareJsonReflexive(f[i].1);
    }
    forall j | 0 <= j < |g| ensures MemberMatchedBack(a, b, j) {
      assert g[j] in multiset(f);
      var i :| 0 <= i < |f| && f[i] == g[j];
      CompareJsonReflexive(g[j].1);
    }
  }

  /** List order is not ignored: lists compare position by position. */
  lemma CompareJsonListsPositional(xs: seq<Json>, ys: seq<Json>)
    requires CompareJsonContent(JArr(xs), JArr(ys))
    ensures |xs| == |ys| && forall k :: 0 <= k < |xs| ==> CompareJsonContent(xs[k], ys[k])
  {
  }
}
