/** Opaque pagination cursors: a dictionary of native cursors, printed as
    sorted JSON, packed as unpadded base64url and marked with a prefix. */
module Cursors {
  import opened Option
  import opened Text
  import Base64
  import opened Json

  const GLOBAL_PREFIX := "global:"
  const ADMIN_PREFIX := "admin:"
  const STATUS_PREFIX := "statuses:"

  const PROVIDERS: seq<string> := ["kite", "tele2", "moabits"]

  predicate IsProvider(name: string) { name in PROVIDERS }

  /** A dictionary in insertion order; every key occurs once. */
  type Dict = seq<Member>

  predicate Distinct(d: Dict) { forall i, j | 0 <= i < j < |d| :: d[i].key != d[j].key }

  /** What a dictionary means; reading JSON, the last of equal keys wins. */
  function ToMap(d: Dict): map<string, Option<string>> {
    if d == [] then map[] else ToMap(d[..|d| - 1])[d[|d| - 1].key := d[|d| - 1].value]
  }

  // ---------- sort_keys ----------

  function Insert(m: Member, d: Dict): Dict {
    if d == [] || Less(m.key, d[0].key) then [m] + d else [d[0]] + Insert(m, d[1..])
  }

  function Sort(d: Dict): Dict {
    if d == [] then [] else Insert(d[0], Sort(d[1..]))
  }

  predicate Sorted(d: Dict) { forall i, j | 0 <= i < j < |d| :: Less(d[i].key, d[j].key) }

  // ---------- Encoding and decoding ----------

  function ToBytes(s: string): seq<Base64.Byte>
    requires Ascii(s)
  {
    seq(|s|, i requires 0 <= i < |s| => s[i] as int)
  }

  /** None for bytes outside ASCII. */
  function FromBytes(bs: seq<Base64.Byte>): Option<string> {
    if forall i | 0 <= i < |bs| :: bs[i] < 128
    then Some(seq(|bs|, i requires 0 <= i < |bs| => if bs[i] < 128 then bs[i] as char else 'x'))
    else None
  }

  function Token(d: Dict): string {
    PrintObjectIsAscii(Sort(d));
    Base64.StripPad(Base64.Encode(ToBytes(PrintObject(Sort(d)))))
  }

  /** None stands for a ValueError or for JSON that is no object. */
  function Untoken(token: string): Option<Dict> {
    var bytes := Base64.Decode(Base64.Repad(token));
    if bytes.None? then None
    else
      var text := FromBytes(bytes.value);
      if text.None? then None else ReadObject(text.value)
  }

  function Active(d: Dict): Dict {
    if d == [] then []
    else if d[0].value.Some? then [d[0]] + Active(d[1..]) else Active(d[1..])
  }

  function EncodeCursor(prefix: string, d: Dict): Option<string> {
    if Active(d) == [] then None else Some(prefix + Token(Active(d)))
  }

  function DecodeCursor(prefix: string, cursor: Option<string>): Option<map<string, Option<string>>> {
    if cursor.None? || !StartsWith(cursor.value, prefix) then None
    else
      var d := Untoken(cursor.value[|prefix|..]);
      if d.None? then Some(map[]) else Some(ToMap(d.value))
  }

  function EncodeGlobal(d: Dict): Option<string> {
    if d == [] then None else Some(GLOBAL_PREFIX + Token(d))
  }

  /** A bare cursor is broadcast to every provider. */
  function DecodeGlobal(cursor: Option<string>): Option<map<string, Option<string>>> {
    if cursor.None? then None
    else if !StartsWith(cursor.value, GLOBAL_PREFIX) then Some(map p | p in PROVIDERS :: cursor)
    else
      var m := DecodeCursor(GLOBAL_PREFIX, cursor).value;
      Some(map k | k in m && IsProvider(k) :: m[k])
  }

  function EncodeAdmin(d: Dict): Option<string> { EncodeCursor(ADMIN_PREFIX, d) }

  function DecodeAdmin(cursor: Option<string>): Option<map<string, Option<string>>> {
    if cursor.None? then None
    else
      var m := DecodeCursor(ADMIN_PREFIX, cursor);
      if m.None? then Some(map[]) else m
  }

  function EncodeStatus(d: Dict): Option<string> { EncodeCursor(STATUS_PREFIX, d) }

  function DecodeStatus(cursor: Option<string>): Option<map<string, Option<string>>> {
    DecodeCursor(STATUS_PREFIX, cursor)
  }

  // ---------- Dictionaries and maps ----------

  lemma OneMemberPerKey(d: Dict, x: Member, y: Member)
    requires Distinct(d) && x in d && y in d && x.key == y.key
    ensures x == y
  {
    var i :| 0 <= i < |d| && d[i] == x;
    var j :| 0 <= j < |d| && d[j] == y;
    assert i == j;
  }

  lemma {:induction false} ToMapHas(d: Dict, k: string, v: Option<string>)
    requires Distinct(d)
    ensures (k in ToMap(d) && ToMap(d)[k] == v) <==> Member(k, v) in d
  {
    if d != [] {
      var e, last := d[..|d| - 1], d[|d| - 1];
      assert d == e + [last];
      if k == last.key {
        assert last in d;
        if Member(k, v) in d { OneMemberPerKey(d, Member(k, v), last); }
      } else {
        ToMapHas(e, k, v);
      }
    }
  }

  /** Distinct dictionaries with the same members mean the same. */
  lemma {:induction false} SameMembersSameMap(d: Dict, e: Dict)
    requires Distinct(d) && Distinct(e)
    ensures ToMap(d) == ToMap(e) <==> forall m :: m in d <==> m in e
  {
    if ToMap(d) == ToMap(e) {
      forall m: Member ensures m in d <==> m in e {
        ToMapHas(d, m.key, m.value);
        ToMapHas(e, m.key, m.value);
      }
    }
    if forall m :: m in d <==> m in e {
      MapIncluded(d, e);
      MapIncluded(e, d);
    }
  }

  lemma {:induction false} MapIncluded(d: Dict, e: Dict)
    requires Distinct(d) && Distinct(e)
    requires forall m :: m in d ==> m in e
    ensures forall k :: k in ToMap(d) ==> k in ToMap(e) && ToMap(e)[k] == ToMap(d)[k]
  {
    forall k | k in ToMap(d) ensures k in ToMap(e) && ToMap(e)[k] == ToMap(d)[k] {
      ToMapHas(d, k, ToMap(d)[k]);
      ToMapHas(e, k, ToMap(d)[k]);
    }
  }

  lemma {:induction false} InsertMembers(m: Member, d: Dict, x: Member)
    ensures x in Insert(m, d) <==> x == m || x in d
  {
    if d != [] && !Less(m.key, d[0].key) {
      InsertMembers(m, d[1..], x);
    }
  }

  lemma {:induction false} InsertSorted(m: Member, d: Dict)
    requires Sorted(d) && forall x | x in d :: x.key != m.key
    ensures Sorted(Insert(m, d))
  {
    if d == [] {
    } else if Less(m.key, d[0].key) {
      forall j | 0 <= j < |d| ensures Less(m.key, d[j].key) {
        if j > 0 { LessIsTransitive(m.key, d[0].key, d[j].key); }
      }
    } else {
      assert d[0] in d;
      LessIsTotal(m.key, d[0].key);
      InsertSorted(m, d[1..]);
      forall x | x in Insert(m, d[1..]) ensures Less(d[0].key, x.key) {
        InsertMembers(m, d[1..], x);
        if x != m {
          var j :| 0 <= j < |d[1..]| && d[1..][j] == x;
          assert x == d[j + 1];
        }
      }
    }
  }

  lemma {:induction false} SortFacts(d: Dict)
    requires Distinct(d)
    ensures Sorted(Sort(d)) && Distinct(Sort(d))
    ensures forall x :: x in Sort(d) <==> x in d
  {
    if d != [] {
      SortFacts(d[1..]);
      forall x ensures x in Sort(d) <==> x in d { InsertMembers(d[0], Sort(d[1..]), x); }
      forall x | x in Sort(d[1..]) ensures x.key != d[0].key {
        var j :| 0 <= j < |d[1..]| && d[1..][j] == x;
        assert d[j + 1].key != d[0].key;
      }
      InsertSorted(d[0], Sort(d[1..]));
    }
    SortedIsDistinct(Sort(d));
  }

  lemma SortedIsDistinct(d: Dict)
    requires Sorted(d)
    ensures Distinct(d)
  {
    forall i, j | 0 <= i < j < |d| ensures d[i].key != d[j].key { LessIsIrreflexive(d[i].key); }
  }

  /** A set of members has one sorted order. */
  lemma {:induction false} SortedUnique(d: Dict, e: Dict)
    requires Sorted(d) && Sorted(e)
    requires forall x :: x in d <==> x in e
    ensures d == e
  {
    HeadIsMember(d);
    HeadIsMember(e);
    if d != [] && e != [] {
      SortedHeads(d, e);
      forall x ensures x in d[1..] <==> x in e[1..] {
        LessIsIrreflexive(d[0].key);
        TailMembers(d, x);
        TailMembers(e, x);
      }
      SortedUnique(d[1..], e[1..]);
      assert d == [d[0]] + d[1..] && e == [e[0]] + e[1..];
    }
  }

  lemma HeadIsMember(d: Dict)
    ensures d == [] || d[0] in d
  {
  }

  lemma TailMembers(d: Dict, x: Member)
    requires d != [] && Sorted(d)
    ensures x in d[1..] <==> x in d && x != d[0]
  {
    LessIsIrreflexive(d[0].key);
    if x in d && x != d[0] {
      var i :| 0 <= i < |d| && d[i] == x;
      assert d[1..][i - 1] == x;
    }
  }

  lemma SortedHeads(d: Dict, e: Dict)
    requires d != [] && e != [] && Sorted(d) && Sorted(e)
    requires forall x :: x in d <==> x in e
    ensures d[0] == e[0]
  {
    assert d[0] in e && e[0] in d;
    var i :| 0 <= i < |e| && e[i] == d[0];
    var j :| 0 <= j < |d| && d[j] == e[0];
    if i > 0 && j > 0 {
      LessIsTransitive(d[0].key, e[0].key, d[0].key);
      LessIsIrreflexive(d[0].key);
    }
  }

  lemma {:induction false} ActiveFacts(d: Dict)
    requires Distinct(d)
    ensures Distinct(Active(d))
    ensures forall x :: x in Active(d) <==> x in d && x.value.Some?
  {
    if d != [] {
      ActiveFacts(d[1..]);
      forall x | x in Active(d[1..]) ensures x.key != d[0].key {
        var j :| 0 <= j < |d[1..]| && d[1..][j] == x;
        assert d[j + 1].key != d[0].key;
      }
    }
  }

  /** The entries of m whose value is not None. */
  function WithoutNone(m: map<string, Option<string>>): map<string, Option<string>> {
    map k | k in m && m[k].Some? :: m[k]
  }

  lemma {:induction false} MapOfActive(d: Dict)
    requires Distinct(d)
    ensures ToMap(Active(d)) == WithoutNone(ToMap(d))
  {
    ActiveFacts(d);
    var a, m := ToMap(Active(d)), ToMap(d);
    forall k | k in a ensures k in m && m[k] == a[k] && m[k].Some? {
      ToMapHas(Active(d), k, a[k]);
      ToMapHas(d, k, a[k]);
    }
    forall k | k in m && m[k].Some? ensures k in a && a[k] == m[k] {
      ToMapHas(d, k, m[k]);
      ToMapHas(Active(d), k, m[k]);
    }
  }

  // ---------- Round trips ----------

  lemma BytesRoundTrip(s: string)
    requires Ascii(s)
    ensures FromBytes(ToBytes(s)) == Some(s)
  {
    assert FromBytes(ToBytes(s)).value == s;
  }

  lemma {:induction false} UntokenOfToken(d: Dict)
    requires Distinct(d)
    ensures Untoken(Token(d)).Some? && ToMap(Untoken(Token(d)).value) == ToMap(d)
    ensures Untoken(Token(d)) == Some(Sort(d))
  {
    var text := PrintObject(Sort(d));
    PrintObjectIsAscii(Sort(d));
    Base64.RepadOfStripPad(ToBytes(text));
    Base64.DecodeOfEncode(ToBytes(text));
    BytesRoundTrip(text);
    ReadObjectOfPrint(Sort(d));
    SortFacts(d);
    SameMembersSameMap(Sort(d), d);
  }

  /** Decoding an encoded cursor gives the dictionary minus its None entries;
      a dictionary of Nones gives no cursor at all. */
  lemma {:induction false} CursorRoundTrip(prefix: string, d: Dict)
    requires Distinct(d)
    ensures EncodeCursor(prefix, d).None? <==> WithoutNone(ToMap(d)) == map[]
    ensures EncodeCursor(prefix, d).Some? ==>
              DecodeCursor(prefix, EncodeCursor(prefix, d)) == Some(WithoutNone(ToMap(d)))
  {
    MapOfActive(d);
    ActiveFacts(d);
    if Active(d) != [] {
      var a := Active(d)[0];
      ToMapHas(Active(d), a.key, a.value);
      MarkedTokenDecodes(prefix, Active(d));
    }
  }

  lemma {:induction false} MarkedTokenDecodes(prefix: string, d: Dict)
    requires Distinct(d)
    ensures DecodeCursor(prefix, Some(prefix + Token(d))) == Some(ToMap(d))
  {
    UntokenOfToken(d);
    var c := prefix + Token(d);
    assert c[..|prefix|] == prefix && c[|prefix|..] == Token(d);
  }

  lemma KnownProvidersStay(c: string, m: map<string, Option<string>>)
    requires StartsWith(c, GLOBAL_PREFIX) && DecodeCursor(GLOBAL_PREFIX, Some(c)) == Some(m)
    requires forall k | k in m :: IsProvider(k)
    ensures DecodeGlobal(Some(c)) == Some(m)
  {
    assert m == map k | k in m && IsProvider(k) :: m[k];
  }

  /** The global cursor keeps its None entries, so providers that were not
      queried come back. */
  lemma {:induction false} GlobalRoundTrip(d: Dict)
    requires Distinct(d) && forall m | m in d :: IsProvider(m.key)
    ensures EncodeGlobal(d).None? <==> ToMap(d) == map[]
    ensures EncodeGlobal(d).Some? ==> DecodeGlobal(EncodeGlobal(d)) == Some(ToMap(d))
  {
    if d != [] {
      ToMapHas(d, d[0].key, d[0].value);
      MarkedTokenDecodes(GLOBAL_PREFIX, d);
      forall k | k in ToMap(d) ensures IsProvider(k) { ToMapHas(d, k, ToMap(d)[k]); }
      KnownProvidersStay(GLOBAL_PREFIX + Token(d), ToMap(d));
    }
  }

  lemma {:induction false} TokenDependsOnMap(d: Dict, e: Dict)
    requires Distinct(d) && Distinct(e)
    ensures Token(d) == Token(e) <==> ToMap(d) == ToMap(e)
  {
    UntokenOfToken(d);
    UntokenOfToken(e);
    SortFacts(d);
    SortFacts(e);
    if ToMap(d) == ToMap(e) {
      SameMembersSameMap(d, e);
      SortedUnique(Sort(d), Sort(e));
    }
  }

  /** Two dictionaries give the same cursor exactly when they agree as maps,
      None entries aside: the insertion order never shows. */
  lemma {:induction false} CursorDependsOnMap(prefix: string, d: Dict, e: Dict)
    requires Distinct(d) && Distinct(e)
    ensures EncodeCursor(prefix, d) == EncodeCursor(prefix, e)
       <==> WithoutNone(ToMap(d)) == WithoutNone(ToMap(e))
  {
    ActiveFacts(d);
    ActiveFacts(e);
    MapOfActive(d);
    MapOfActive(e);
    TokenDependsOnMap(Active(d), Active(e));
    CursorRoundTrip(prefix, d);
    CursorRoundTrip(prefix, e);
    if Active(d) != [] && Active(e) != [] {
      var p := prefix;
      assert (p + Token(Active(d)))[|p|..] == Token(Active(d));
      assert (p + Token(Active(e)))[|p|..] == Token(Active(e));
    }
  }

  /** The same for the global cursor, None entries included. */
  lemma {:induction false} GlobalDependsOnMap(d: Dict, e: Dict)
    requires Distinct(d) && Distinct(e)
    ensures EncodeGlobal(d) == EncodeGlobal(e) <==> ToMap(d) == ToMap(e)
  {
    TokenDependsOnMap(d, e);
    var p := GLOBAL_PREFIX;
    assert (p + Token(d))[|p|..] == Token(d) && (p + Token(e))[|p|..] == Token(e);
    if d != [] { ToMapHas(d, d[0].key, d[0].value); }
    if e != [] { ToMapHas(e, e[0].key, e[0].value); }
  }

  /** A cursor nested in a global cursor comes out again untouched: a status
      cursor survives two rounds of printing, quoting and packing. */
  lemma {:induction false} NestedRoundTrip(statuses: Dict, d: Dict, provider: string)
    requires Distinct(statuses) && EncodeStatus(statuses).Some?
    requires Distinct(d) && (forall m | m in d :: IsProvider(m.key))
    requires Member(provider, EncodeStatus(statuses)) in d
    ensures var m := DecodeGlobal(EncodeGlobal(d));
            m.Some? && provider in m.value
            && DecodeStatus(m.value[provider]) == Some(WithoutNone(ToMap(statuses)))
  {
    GlobalRoundTrip(d);
    ToMapHas(d, provider, EncodeStatus(statuses));
    CursorRoundTrip(STATUS_PREFIX, statuses);
  }

  /** A native cursor, which starts with a digit or with `page:`, is never
      taken for a status cursor. */
  lemma NativeCursorIsNoStatusCursor(c: string)
    requires c != "" && (IsDigit(c[0]) || c[0] == 'p')
    ensures DecodeStatus(Some(c)) == None
  {
    PrefixHead(c, STATUS_PREFIX);
  }

  // ---------- The token itself ----------

  /** Inside a token the keys come in the order of their code points. */
  lemma {:induction false} KeysAreSorted(d: Dict, i: nat, j: nat) returns (p: nat)
    requires Distinct(d) && i < j < |d|
    ensures Untoken(Token(d)).Some? && |Untoken(Token(d)).value| == |d|
    ensures var a, b := Untoken(Token(d)).value[i].key, Untoken(Token(d)).value[j].key;
            p <= |a| && p < |b| && a[..p] == b[..p] && (p == |a| || (a[p] as int) < (b[p] as int))
  {
    UntokenOfToken(d);
    SortFacts(d);
    SortKeepsSize(d);
    p := LessAt(Sort(d)[i].key, Sort(d)[j].key);
  }

  lemma {:induction false} InsertSize(m: Member, d: Dict)
    ensures |Insert(m, d)| == |d| + 1
  {
    if d != [] && !Less(m.key, d[0].key) { InsertSize(m, d[1..]); }
  }

  lemma {:induction false} SortKeepsSize(d: Dict)
    ensures |Sort(d)| == |d|
  {
    if d != [] {
      SortKeepsSize(d[1..]);
      InsertSize(d[0], Sort(d[1..]));
    }
  }

  // ---------- Other cursors ----------

  /** A cursor without the mark is every provider's own. */
  lemma BareCursorIsBroadcast(c: string)
    requires !StartsWith(c, "global:")
    ensures DecodeGlobal(Some(c)) == Some(map["kite" := Some(c), "tele2" := Some(c), "moabits" := Some(c)])
  {
    var m := DecodeGlobal(Some(c)).value;
    forall p ensures p in m <==> p == "kite" || p == "tele2" || p == "moabits" { ThreeProviders(p); }
    ThreeEntries(m, Some(c));
  }

  lemma ThreeEntries(m: map<string, Option<string>>, v: Option<string>)
    requires forall p :: p in m <==> p == "kite" || p == "tele2" || p == "moabits"
    requires forall p | p in m :: m[p] == v
    ensures m == map["kite" := v, "tele2" := v, "moabits" := v]
  {
  }

  lemma ThreeProviders(p: string)
    ensures IsProvider(p) <==> p == "kite" || p == "tele2" || p == "moabits"
  {
    assert PROVIDERS[0] == "kite" && PROVIDERS[1] == "tele2" && PROVIDERS[2] == "moabits" && |PROVIDERS| == 3;
  }

  lemma GlobalReads(c: string, m: map<string, Option<string>>)
    requires StartsWith(c, "global:") && DecodeCursor("global:", Some(c)) == Some(m)
    ensures DecodeGlobal(Some(c)) == Some(map k | k in m && IsProvider(k) :: m[k])
  {
  }

  /** Of a marked cursor the entries of the three providers count and no others. */
  lemma {:induction false} OnlyProvidersAreRead(d: Dict, k: string)
    requires Distinct(d)
    ensures var r := DecodeGlobal(Some("global:" + Token(d)));
            r.Some? && (k in r.value <==> k in ToMap(d) && (k == "kite" || k == "tele2" || k == "moabits"))
            && (k in r.value ==> r.value[k] == ToMap(d)[k])
  {
    MarkedTokenDecodes("global:", d);
    GlobalReads("global:" + Token(d), ToMap(d));
    ThreeProviders(k);
  }

  lemma MarkedDecode(prefix: string, token: string)
    ensures DecodeCursor(prefix, Some(prefix + token))
            == Some(if Untoken(token).None? then map[] else ToMap(Untoken(token).value))
  {
    var c := prefix + token;
    assert c[..|prefix|] == prefix && c[|prefix|..] == token;
  }

  /** A marked cursor that cannot be read is an empty one: the run is at its end. */
  lemma UnreadableIsEmpty(token: string)
    requires Untoken(token).None?
    ensures DecodeGlobal(Some("global:" + token)) == Some(map[])
    ensures DecodeAdmin(Some("admin:" + token)) == Some(map[])
    ensures DecodeStatus(Some("statuses:" + token)) == Some(map[])
  {
    MarkedDecode(GLOBAL_PREFIX, token);
    MarkedDecode(ADMIN_PREFIX, token);
    MarkedDecode(STATUS_PREFIX, token);
  }

  /** One is any whose length is one more than a multiple of four. */
  lemma CutTokenIsUnreadable(token: string)
    requires |token| % 4 == 1
    ensures Untoken(token).None?
  {
    Base64.OneTooMany(token);
  }

  /** Without its mark a status cursor is none, and an admin cursor an empty one; no
      cursor at all is no cursor for any of them. */
  lemma UnmarkedCursors(c: string)
    ensures !StartsWith(c, "statuses:") ==> DecodeStatus(Some(c)) == None
    ensures !StartsWith(c, "admin:") ==> DecodeAdmin(Some(c)) == Some(map[])
    ensures DecodeGlobal(None) == None && DecodeAdmin(None) == None && DecodeStatus(None) == None
  {
  }
}
