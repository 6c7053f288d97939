/** Balance normalisation of `src/lib/stellar/utils.ts`: resolving a Horizon
    balance line against the registry, the display list (native first, then by
    code) and the native balance lookup. */
module Balances {
  import opened Wrappers
  import opened Strings
  import opened AssetConfig

  datatype AssetType = Native | CreditAlphanum4 | CreditAlphanum12

  /** One balance line of a Horizon account response; `balance` is Horizon's
      decimal text. */
  datatype StellarBalance = StellarBalance(
    balance: string,
    buyingLiabilities: string,
    sellingLiabilities: string,
    assetType: AssetType,
    assetCode: Option<string>,
    assetIssuer: Option<string>)

  /** A balance prepared for display. */
  datatype FormattedBalance = FormattedBalance(code: string, balance: string, decimals: nat, isNative: bool)

  predicate IsNativeLine(b: StellarBalance) {
    b.assetType == Native
  }

  /** `getAssetConfigForBalance`. */
  function GetAssetConfigForBalance(b: StellarBalance): (r: Option<AssetDescriptor>)
    ensures IsNativeLine(b) ==> r == Some(NATIVE_ASSET)
    ensures !IsNativeLine(b) && Present(b.assetCode) ==> r == GetAssetByCode(b.assetCode.value)
    ensures !IsNativeLine(b) && !Present(b.assetCode) ==> r.None?
    ensures r.Some? ==> r.value in GetAllAssets()
  {
    if IsNativeLine(b) then Some(NATIVE_ASSET)
    else if Present(b.assetCode) then GetAssetByCode(b.assetCode.value)
    else None
  }

  /** The `map` step of `formatStellarBalances` for one line. */
  function FormatBalance(b: StellarBalance): (r: FormattedBalance)
    ensures r.balance == b.balance
    ensures r.isNative <==> IsNativeLine(b)
    ensures IsNativeLine(b) ==> r.code == "XLM"
    ensures !IsNativeLine(b) && Present(b.assetCode) ==> r.code == b.assetCode.value
    ensures !IsNativeLine(b) && !Present(b.assetCode) ==> r.code == "Unknown"
    ensures r.decimals == 7
  {
    var config := GetAssetConfigForBalance(b);
    var isNative := IsNativeLine(b);
    var code := if isNative then "XLM" else if Present(b.assetCode) then b.assetCode.value else "Unknown";
    // `assetConfig?.decimals || 7`: an unknown asset or zero decimals falls back to 7
    var decimals := if config.Some? && config.value.decimals != 0 then config.value.decimals else 7;
    FormattedBalance(code, b.balance, decimals, isNative)
  }

  function MapFormat(bs: seq<StellarBalance>): (r: seq<FormattedBalance>)
    ensures |r| == |bs|
    ensures forall i :: 0 <= i < |bs| ==> r[i] == FormatBalance(bs[i])
  {
    if |bs| == 0 then [] else [FormatBalance(bs[0])] + MapFormat(bs[1..])
  }

  // ---------------------------------------------------------------------------
  // The sort comparator: native entries first, then by code

  /** `compare(a, b) <= 0` for the comparator of `formatStellarBalances`. */
  predicate DisplayLe(a: FormattedBalance, b: FormattedBalance) {
    (a.isNative && !b.isNative) || (a.isNative == b.isNative && LexLe(a.code, b.code))
  }

  lemma DisplayLeTotal(a: FormattedBalance, b: FormattedBalance)
    ensures DisplayLe(a, b) || DisplayLe(b, a)
  {
    LexLeTotal(a.code, b.code);
  }

  lemma DisplayLeTransitive(a: FormattedBalance, b: FormattedBalance, c: FormattedBalance)
    requires DisplayLe(a, b) && DisplayLe(b, c)
    ensures DisplayLe(a, c)
  {
    if a.isNative == b.isNative && b.isNative == c.isNative {
      LexLeTransitive(a.code, b.code, c.code);
    }
  }

  predicate SortedForDisplay(s: seq<FormattedBalance>) {
    forall i, j :: 0 <= i < j < |s| ==> DisplayLe(s[i], s[j])
  }

  /** Whatever precedes the head of a sorted list precedes all of it. */
  lemma BelowSortedHead(x: FormattedBalance, t: seq<FormattedBalance>)
    requires |t| > 0 && SortedForDisplay(t) && DisplayLe(x, t[0])
    ensures forall j :: 0 <= j < |t| ==> DisplayLe(x, t[j])
  {
    forall j | 0 < j < |t| ensures DisplayLe(x, t[j]) {
      DisplayLeTransitive(x, t[0], t[j]);
    }
  }

  /** A lower bound of `x` and of every element of `tail` bounds every
      element of a list holding exactly those. */
  lemma BoundedByMembers(a: FormattedBalance, x: FormattedBalance, tail: seq<FormattedBalance>, rest: seq<FormattedBalance>)
    requires DisplayLe(a, x) && forall j :: 0 <= j < |tail| ==> DisplayLe(a, tail[j])
    requires multiset(rest) == multiset(tail) + multiset{x}
    ensures forall j :: 0 <= j < |rest| ==> DisplayLe(a, rest[j])
  {
    forall j | 0 <= j < |rest| ensures DisplayLe(a, rest[j]) {
      assert rest[j] in multiset(rest);
      if rest[j] != x {
        assert rest[j] in multiset(tail);
        var k :| 0 <= k < |tail| && tail[k] == rest[j];
      }
    }
  }

  /** Inserts `x` before the first element it does not follow; `x` goes ahead
      of entries that compare equal, which keeps the sort stable. */
  function Insert(x: FormattedBalance, t: seq<FormattedBalance>): (r: seq<FormattedBalance>)
    requires SortedForDisplay(t)
    ensures multiset(r) == multiset(t) + multiset{x}
    ensures SortedForDisplay(r)
  {
    if |t| == 0 then [x]
    else if DisplayLe(x, t[0]) then
      BelowSortedHead(x, t);
      [x] + t
    else
      DisplayLeTotal(x, t[0]);
      var rest := Insert(x, t[1..]);
      assert t == [t[0]] + t[1..];
      BoundedByMembers(t[0], x, t[1..], rest);
      [t[0]] + rest
  }

  /** The entries of `s` of one kind and code, in their order in `s`: the
      entries the comparator cannot tell apart. */
  function Ties(s: seq<FormattedBalance>, isNative: bool, code: string): seq<FormattedBalance> {
    if |s| == 0 then [] else TieHead(s[0], isNative, code) + Ties(s[1..], isNative, code)
  }

  /** `a` when it is of that kind and code, else nothing. */
  function TieHead(a: FormattedBalance, isNative: bool, code: string): seq<FormattedBalance> {
    if a.isNative == isNative && a.code == code then [a] else []
  }

  lemma TiesCons(a: FormattedBalance, t: seq<FormattedBalance>, isNative: bool, code: string)
    ensures Ties([a] + t, isNative, code) == TieHead(a, isNative, code) + Ties(t, isNative, code)
  {
    assert ([a] + t)[0] == a;
    assert ([a] + t)[1..] == t;
  }

  /** Inserting `x` puts it ahead of every entry that ties with it and
      leaves the ties of any other kind and code as they were. */
  lemma {:induction false} InsertStable(x: FormattedBalance, t: seq<FormattedBalance>, isNative: bool, code: string)
    requires SortedForDisplay(t)
    ensures Ties(Insert(x, t), isNative, code) == TieHead(x, isNative, code) + Ties(t, isNative, code)
  {
    if |t| == 0 {
      assert Insert(x, t) == [x] + t;
      TiesCons(x, t, isNative, code);
    } else if DisplayLe(x, t[0]) {
      assert Insert(x, t) == [x] + t;
      TiesCons(x, t, isNative, code);
    } else {
      var rest := Insert(x, t[1..]);
      assert Insert(x, t) == [t[0]] + rest;
      assert t == [t[0]] + t[1..];
      TiesCons(t[0], rest, isNative, code);
      TiesCons(t[0], t[1..], isNative, code);
      InsertStable(x, t[1..], isNative, code);
      if x.isNative == isNative && x.code == code {
        LexLeTotal(code, code);
        assert TieHead(t[0], isNative, code) == [];
      }
    }
  }

  lemma InsertStableAll(x: FormattedBalance, t: seq<FormattedBalance>)
    requires SortedForDisplay(t)
    ensures forall isNative: bool, code: string ::
      Ties(Insert(x, t), isNative, code) == TieHead(x, isNative, code) + Ties(t, isNative, code)
  {
    forall isNative: bool, code: string
      ensures Ties(Insert(x, t), isNative, code) == TieHead(x, isNative, code) + Ties(t, isNative, code)
    {
      InsertStable(x, t, isNative, code);
    }
  }

  /** Stable insertion sort under `DisplayLe`: a sorted permutation in which
      entries of the same kind and code keep their input order. */
  function SortForDisplay(s: seq<FormattedBalance>): (r: seq<FormattedBalance>)
    ensures multiset(r) == multiset(s)
    ensures SortedForDisplay(r)
    ensures forall isNative: bool, code: string :: Ties(r, isNative, code) == Ties(s, isNative, code)
  {
    if |s| == 0 then []
    else
      assert s == [s[0]] + s[1..];
      InsertStableAll(s[0], SortForDisplay(s[1..]));
      Insert(s[0], SortForDisplay(s[1..]))
  }

  /** `formatStellarBalances`: every line formatted (none filtered out), then
      sorted native first and by code. */
  function FormatStellarBalances(bs: seq<StellarBalance>): (r: seq<FormattedBalance>)
    ensures |r| == |bs|
    ensures multiset(r) == multiset(MapFormat(bs))
    ensures SortedForDisplay(r)
    ensures forall isNative: bool, code: string :: Ties(r, isNative, code) == Ties(MapFormat(bs), isNative, code)
  {
    var r := SortForDisplay(MapFormat(bs));
    assert |r| == |multiset(r)| == |multiset(MapFormat(bs))| == |bs|;
    r
  }

  /** Every input line appears, formatted, in the display list; every entry of
      the list comes from some input line. */
  lemma FormatStellarBalancesContents(bs: seq<StellarBalance>)
    ensures forall i :: 0 <= i < |bs| ==> FormatBalance(bs[i]) in FormatStellarBalances(bs)
    ensures forall e :: e in FormatStellarBalances(bs) ==> exists i :: 0 <= i < |bs| && e == FormatBalance(bs[i])
  {
    var m := MapFormat(bs);
    var r := FormatStellarBalances(bs);
    forall i | 0 <= i < |bs| ensures FormatBalance(bs[i]) in r {
      assert m[i] in multiset(m);
    }
    forall e | e in r ensures exists i :: 0 <= i < |bs| && e == FormatBalance(bs[i]) {
      assert e in multiset(r);
      assert e in m;
      var i :| 0 <= i < |m| && m[i] == e;
    }
  }

  /** In the display list no non-native entry precedes a native one, and
      entries of the same kind are in code order. */
  lemma NativeFirst(bs: seq<StellarBalance>)
    ensures var r := FormatStellarBalances(bs);
      forall i, j :: 0 <= i < j < |r| && r[j].isNative ==> r[i].isNative
    ensures var r := FormatStellarBalances(bs);
      forall i, j :: 0 <= i < j < |r| && r[i].isNative == r[j].isNative ==> LexLe(r[i].code, r[j].code)
  {
  }

  // ---------------------------------------------------------------------------
  // `balances.find(b => b.asset_type === "native")`

  function FindNative(bs: seq<StellarBalance>): (r: Option<nat>)
    ensures r.Some? ==> r.value < |bs| && IsNativeLine(bs[r.value])
    ensures r.Some? ==> forall j :: 0 <= j < r.value ==> !IsNativeLine(bs[j])
    ensures r.None? ==> forall j :: 0 <= j < |bs| ==> !IsNativeLine(bs[j])
  {
    if |bs| == 0 then None
    else if IsNativeLine(bs[0]) then Some(0)
    else
      match FindNative(bs[1..])
      case None => None
      case Some(k) => Some(k + 1)
  }

  /** `getNativeBalance`: the first native line's text, or `null` when there is none. */
  function GetNativeBalance(bs: seq<StellarBalance>): (r: Option<string>)
    ensures r.None? <==> forall j :: 0 <= j < |bs| ==> !IsNativeLine(bs[j])
    ensures r.Some? ==> exists i :: (0 <= i < |bs| && IsNativeLine(bs[i]) && bs[i].balance == r.value
      && forall j :: 0 <= j < i ==> !IsNativeLine(bs[j]))
  {
    match FindNative(bs)
    case None => None
    case Some(i) => Some(bs[i].balance)
  }
}
