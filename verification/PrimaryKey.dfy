/** Primary keys: from request text to a typed key, and the read that tries the other type. */
module PrimaryKey {
  import opened Prelude
  import opened PyInt

  datatype Pk = Text(s: string) | Number(n: int) | Blob(bytes: seq<int>)

  datatype PkType = Auto | AsString | AsInt | AsBytes

  datatype Error = BadKey | RecordNotFound

  function HexValue(c: char): int {
    if '0' <= c <= '9' then c as int - '0' as int
    else if 'a' <= c <= 'f' then c as int - 'a' as int + 10
    else if 'A' <= c <= 'F' then c as int - 'A' as int + 10
    else -1
  }

  predicate HexSpace(c: char) { 9 <= c as int <= 13 || c == ' ' }

  /** `bytes.fromhex`: white space is skipped between bytes only. */
  function FromHex(s: string): Option<seq<int>> {
    if s == "" then Some([])
    else if HexSpace(s[0]) then FromHex(s[1..])
    else if |s| < 2 || HexValue(s[0]) < 0 || HexValue(s[1]) < 0 then None
    else
      match FromHex(s[2..])
      case None => None
      case Some(rest) => Some([16 * HexValue(s[0]) + HexValue(s[1])] + rest)
  }

  /** `resolve_pk` */
  function Resolve(d: DigitTable, pk: string, t: PkType): Result<Pk, Error> {
    match t
    case AsString => Ok(Text(pk))
    case AsInt => (match Parse(d, pk) case Some(n) => Ok(Number(n)) case None => Err(BadKey))
    case AsBytes => (match FromHex(pk) case Some(b) => Ok(Blob(b)) case None => Err(BadKey))
    case Auto =>
      match Parse(d, pk)
      case Some(n) => if Show(n) == pk then Ok(Number(n)) else Ok(Text(pk))
      case None => Ok(Text(pk))
  }

  /** The records of one namespace and set. */
  type Store<R> = map<Pk, R>

  datatype Found<R> = Found(key: Pk, record: R)

  function Get<R>(store: Store<R>, key: Pk): Result<Found<R>, Error> {
    if key in store then Ok(Found(key, store[key])) else Err(RecordNotFound)
  }

  /** `get_with_pk_fallback`: `first` and `second` are the store as the two reads find it. */
  function GetWithPkFallback<R>(first: Store<R>, second: Store<R>, key: Pk, pkRaw: string, t: PkType): Result<Found<R>, Error> {
    match Get(first, key)
    case Ok(found) => Ok(found)
    case Err(e) => if t != Auto || !key.Number? then Err(e) else Get(second, Text(pkRaw))
  }

  /** Resolving and reading, as the record routes do. */
  function Read<R>(d: DigitTable, first: Store<R>, second: Store<R>, pk: string, t: PkType): Result<Found<R>, Error> {
    match Resolve(d, pk, t)
    case Err(e) => Err(e)
    case Ok(key) => GetWithPkFallback(first, second, key, pk, t)
  }

  /** The text a key is shown as. */
  predicate Spells(key: Pk, pk: string) {
    match key
    case Text(s) => s == pk
    case Number(n) => Show(n) == pk
    case Blob(_) => false
  }

  /** An integer key is a signed 64-bit number. */
  predicate Stored64<R>(store: Store<R>) {
    forall key :: key in store && key.Number? ==> -0x8000_0000_0000_0000 <= key.n < 0x8000_0000_0000_0000
  }

  function Pow10(k: nat): nat { if k == 0 then 1 else 10 * Pow10(k - 1) }

  lemma {:induction false} ShowLength(n: nat, k: nat)
    requires k >= 1 && n < Pow10(k)
    ensures |ShowNat(n)| <= k
  {
    if n >= 10 {
      assert Pow10(1) == 10;
      ShowLength(n / 10, k - 1);
    }
  }

  lemma Pow10Of19()
    ensures Pow10(19) > 0x8000_0000_0000_0000
  {
    assert Pow10(4) == 10000;
    assert Pow10(8) == 100000000;
    assert Pow10(12) == 1000000000000;
    assert Pow10(16) == 10000000000000000;
  }

  /** A 64-bit integer is well within the digit limit, so `auto` finds it by its text. */
  lemma AutoOfShown(d: DigitTable, n: int)
    requires IsTable(d) && -0x8000_0000_0000_0000 <= n < 0x8000_0000_0000_0000
    ensures Resolve(d, Show(n), Auto) == Ok(Number(n))
  {
    hide Parse, Show, ShowNat, Unsigned, Pow10;
    Pow10Of19();
    ShowLength(if n < 0 then -n else n, 19);
    ShownParts(n);
    ParseOfShow(d, n);
  }

  /** `auto` reads a key as an integer exactly for canonical decimals within the digit limit, and
      then as the integer it spells; any other text, "00042" or "+5" say, stays text. */
  lemma AutoIsIntegerIff(d: DigitTable, pk: string)
    requires IsTable(d)
    ensures Resolve(d, pk, Auto).Ok?
    ensures var key := Resolve(d, pk, Auto).value;
            && Spells(key, pk) && !key.Blob?
            && (key.Number? <==> Canonical(pk) && |Unsigned(pk)| <= MAX_DIGITS)
  {
    RoundTripIff(d, pk);
  }

  /** Two requests never reach each other's key. */
  lemma AutoInjective(d: DigitTable, p: string, q: string)
    requires IsTable(d) && Resolve(d, p, Auto) == Resolve(d, q, Auto)
    ensures p == q
  {
    AutoIsIntegerIff(d, p);
    AutoIsIntegerIff(d, q);
  }

  /** Of the keys of a store only two can be spelled as requested: the text, and what `auto`
      resolves it to. */
  lemma SpelledKeys<R>(d: DigitTable, store: Store<R>, pk: string, key: Pk)
    requires IsTable(d) && Stored64(store) && key in store && Spells(key, pk)
    ensures key == Text(pk) || Resolve(d, pk, Auto) == Ok(key)
  {
    hide Resolve;
    if key.Number? {
      AutoOfShown(d, key.n);
    }
  }

  lemma FallbackFinds<R>(store: Store<R>, key: Pk, pk: string)
    requires key == Text(pk) || key.Number?
    ensures var r := GetWithPkFallback(store, store, key, pk, Auto);
            && (r.Ok? <==> key in store || Text(pk) in store)
            && (r.Ok? ==> r.value == if key in store then Found(key, store[key]) else Found(Text(pk), store[Text(pk)]))
            && (r.Err? ==> r.error == RecordNotFound)
  {
  }

  /** An `auto` read of any store: the record found has a key spelled exactly as requested, the
      integer one if there is one, and not-found means there is neither. */
  lemma AutoRead<R>(d: DigitTable, store: Store<R>, pk: string)
    requires IsTable(d) && Stored64(store)
    ensures var r := Read(d, store, store, pk, Auto);
            && (r.Ok? <==> exists key :: key in store && Spells(key, pk))
            && (r.Ok? ==> r.value.key in store && r.value.record == store[r.value.key] && Spells(r.value.key, pk))
            && (r.Ok? ==> (r.value.key.Number? <==> exists n :: Number(n) in store && Show(n) == pk))
            && (r.Err? ==> r.error == RecordNotFound)
  {
    AutoIsIntegerIff(d, pk);
    var key := Resolve(d, pk, Auto).value;
    FallbackFinds(store, key, pk);
    forall k | k in store && Spells(k, pk) ensures k == Text(pk) || k == key { SpelledKeys(d, store, pk, k); }
    forall n | Number(n) in store && Show(n) == pk ensures Number(n) == key { SpelledKeys(d, store, pk, Number(n)); }
    assert Spells(Text(pk), pk);
    hide Resolve, Show, Canonical, Stored64, GetWithPkFallback;
    if key.Number? && key in store {
      assert Number(key.n) in store;
    }
  }

  /** Between the two reads the store may change; what is returned was there, under a key spelled
      as requested, when it was read. */
  lemma AutoReadRacing<R>(d: DigitTable, first: Store<R>, second: Store<R>, pk: string)
    requires IsTable(d)
    ensures var r := Read(d, first, second, pk, Auto);
            r.Ok? ==> Spells(r.value.key, pk)
                      && (Get(first, r.value.key) == r || (r.value.key == Text(pk) && Get(second, Text(pk)) == r))
  {
    AutoIsIntegerIff(d, pk);
  }

  /** An explicit type reads its own key only, once: the text itself, the integer it spells, or the
      bytes it spells; text that spells none is refused, and nothing is tried instead. */
  lemma ExplicitNeverFallsBack<R>(d: DigitTable, first: Store<R>, second: Store<R>, pk: string)
    ensures Read(d, first, second, pk, AsString) == Get(first, Text(pk))
    ensures Read(d, first, second, pk, AsInt)
            == if Parse(d, pk).Some? then Get(first, Number(Parse(d, pk).value)) else Err(BadKey)
    ensures Read(d, first, second, pk, AsBytes)
            == if FromHex(pk).Some? then Get(first, Blob(FromHex(pk).value)) else Err(BadKey)
  {
    hide Parse, FromHex, Show;
  }

  /** A read finds the record stored under the key, or says there is none. */
  lemma GetIff<R>(store: Store<R>, key: Pk)
    ensures Get(store, key).Ok? <==> key in store
    ensures Get(store, key).Ok? ==> Get(store, key).value == Found(key, store[key])
    ensures Get(store, key).Err? ==> Get(store, key).error == RecordNotFound
  {
  }

  function HexDigit(n: int): char
    requires 0 <= n < 16
  {
    if n < 10 then (n + '0' as int) as char else (n - 10 + 'a' as int) as char
  }

  predicate Bytes(b: seq<int>) { forall i :: 0 <= i < |b| ==> 0 <= b[i] < 256 }

  function ToHex(b: seq<int>): string
    requires Bytes(b)
  {
    if b == [] then "" else [HexDigit(b[0] / 16), HexDigit(b[0] % 16)] + ToHex(b[1..])
  }

  /** A digit is worth its place in the sixteen, in either case; anything else is no digit. */
  lemma HexValueIff(c: char, n: int)
    requires 0 <= n < 16
    ensures HexValue(c) == n <==> c == "0123456789abcdef"[n] || c == "0123456789ABCDEF"[n]
    ensures HexValue(c) < 0 ==> HexValue(c) == -1
    ensures HexValue(c) < 16
  {
  }

  /** The white space that `fromhex` skips, by code. */
  predicate Skipped(c: char) { c as int in {9, 10, 11, 12, 13, 32} }

  /** The text without that white space, in lower case. */
  function Squeezed(s: string): string {
    if s == "" then "" else (if Skipped(s[0]) then "" else [LowerChar(s[0])]) + Squeezed(s[1..])
  }

  lemma DigitOfValue(c: char)
    requires HexValue(c) >= 0
    ensures HexValue(c) < 16 && HexDigit(HexValue(c)) == LowerChar(c) && !Skipped(c)
  {
  }

  lemma HexOfByte(x: int, y: int, b: seq<int>)
    requires 0 <= x < 16 && 0 <= y < 16 && Bytes(b)
    ensures Bytes([16 * x + y] + b) && ToHex([16 * x + y] + b) == [HexDigit(x), HexDigit(y)] + ToHex(b)
  {
    hide HexDigit;
    var v := 16 * x + y;
    assert v / 16 == x && v % 16 == y;
    assert ([v] + b)[1..] == b;
  }

  lemma SqueezedTwo(c: char, d: char, rest: string)
    requires !Skipped(c) && !Skipped(d)
    ensures Squeezed([c, d] + rest) == [LowerChar(c), LowerChar(d)] + Squeezed(rest)
  {
    hide Skipped, LowerChar;
    assert ([c, d] + rest)[1..] == [d] + rest && ([d] + rest)[1..] == rest;
    assert Squeezed([d] + rest) == [LowerChar(d)] + Squeezed(rest);
    assert Squeezed([c, d] + rest) == [LowerChar(c)] + ([LowerChar(d)] + Squeezed(rest));
  }

  lemma SpellByte(c: char, d: char, rest: string, b: seq<int>)
    requires HexValue(c) >= 0 && HexValue(d) >= 0 && Bytes(b) && Squeezed(rest) == ToHex(b)
    ensures var all := [16 * HexValue(c) + HexValue(d)] + b; Bytes(all) && Squeezed([c, d] + rest) == ToHex(all)
  {
    hide HexValue, HexDigit, Skipped, LowerChar, Squeezed, ToHex;
    DigitOfValue(c);
    DigitOfValue(d);
    HexOfByte(HexValue(c), HexValue(d), b);
    SqueezedTwo(c, d, rest);
  }

  /** What `fromhex` accepts spells the bytes it returns: two digits each, in either case, with white
      space nowhere but around bytes. */
  lemma {:induction false} HexSpells(s: string)
    requires FromHex(s).Some?
    ensures Bytes(FromHex(s).value) && Squeezed(s) == ToHex(FromHex(s).value)
    decreases |s|
  {
    hide HexValue, LowerChar, ToHex;
    if s == "" {
      NothingSpelled();
    } else if HexSpace(s[0]) {
      HexSpells(s[1..]);
      assert Squeezed(s) == "" + Squeezed(s[1..]);
    } else {
      HexSpells(s[2..]);
      SpellByte(s[0], s[1], s[2..], FromHex(s[2..]).value);
      assert s == [s[0], s[1]] + s[2..];
    }
  }

  lemma NothingSpelled()
    ensures ToHex([]) == ""
  {
  }

  /** And everything that spells bytes so is accepted: white space before a byte is skipped, and a byte
      is two digits. */
  lemma HexAccepts(c: char, d: char, rest: string)
    ensures Skipped(c) ==> FromHex([c] + rest) == FromHex(rest)
    ensures HexValue(c) >= 0 && HexValue(d) >= 0 && FromHex(rest).Some? ==>
              FromHex([c, d] + rest) == Some([16 * HexValue(c) + HexValue(d)] + FromHex(rest).value)
  {
    assert ([c] + rest)[1..] == rest && ([c, d] + rest)[2..] == rest;
  }

  lemma DigitReads(n: int)
    requires 0 <= n < 16
    ensures HexValue(HexDigit(n)) == n
  {
  }

  /** Every byte string can be asked for: `fromhex` undoes printing as hex. */
  lemma {:induction false} HexRoundTrip(b: seq<int>)
    requires Bytes(b)
    ensures FromHex(ToHex(b)) == Some(b)
  {
    if b != [] {
      var x, y := b[0] / 16, b[0] % 16;
      HexRoundTrip(b[1..]);
      DigitReads(x);
      DigitReads(y);
      hide HexValue, HexDigit, FromHex;
      HexAccepts(HexDigit(x), HexDigit(y), ToHex(b[1..]));
      assert b == [16 * x + y] + b[1..];
    }
  }
}
