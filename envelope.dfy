/** The response envelope of the dog image API (types/index.ts) and the
    breed-name list the page is built with (getStaticProps in pages/index.tsx). */
module Envelope {

  datatype Option<+T> = None | Some(value: T)

  /** The `status` tag of an envelope. */
  datatype Status = Success | Error

  /** One breed of the catalog object: its name and its (possibly empty) sub-breeds.
      A JSON object is kept as the sequence of its entries, in the order received. */
  datatype Entry = Entry(name: string, subBreeds: seq<string>)

  /** The `message` payload, whose shape depends on the endpoint. */
  datatype Message =
    | Catalog(entries: seq<Entry>)
    | Urls(urls: seq<string>)
    | Str(text: string)

  /** `FetchResult`: status, payload and the optional numeric error code. */
  datatype FetchResult = FetchResult(status: Status, message: Message, code: Option<int>)

  /** The names of the entries of a catalog, in order. */
  function Names(entries: seq<Entry>): (r: seq<string>)
    ensures |r| == |entries|
    ensures forall i :: 0 <= i < |entries| ==> r[i] == entries[i].name
  {
    if entries == [] then [] else [entries[0].name] + Names(entries[1..])
  }

  function Digit(d: nat): (c: char)
    requires d < 10
    ensures '0' <= c <= '9' && c as int - '0' as int == d
  {
    ('0' as int + d) as char
  }

  /** The value a string of digits denotes. */
  function DigitsValue(s: string): int
  {
    if s == [] then 0 else 10 * DigitsValue(s[..|s| - 1]) + (s[|s| - 1] as int - '0' as int)
  }

  /** `s` is how JavaScript spells the number `n`: decimal digits only, no
      leading '0' except in "0" itself, and worth `n`. */
  predicate DecimalSpelling(s: string, n: nat)
  {
    |s| >= 1 &&
    (forall i :: 0 <= i < |s| ==> '0' <= s[i] <= '9') &&
    (|s| > 1 ==> s[0] != '0') &&
    DigitsValue(s) == n
  }

  /** The decimal spelling of a natural number, as an array index key. */
  function Decimal(n: nat): (r: string)
    ensures |r| >= 1
    ensures forall i :: 0 <= i < |r| ==> '0' <= r[i] <= '9'
    ensures n == 0 <==> r == "0"
    ensures |r| > 1 ==> r[0] != '0'
  {
    if n < 10 then [Digit(n)] else Decimal(n / 10) + [Digit(n % 10)]
  }

  lemma {:induction false} DecimalValue(n: nat)
    ensures DigitsValue(Decimal(n)) == n
  {
    var r := Decimal(n);
    if n >= 10 {
      DecimalValue(n / 10);
      assert r[..|r| - 1] == Decimal(n / 10);
    }
  }

  lemma DecimalIsSpelling(n: nat)
    ensures DecimalSpelling(Decimal(n), n)
  {
    DecimalValue(n);
  }

  /** `Object.keys` of a payload: the entry names of an object, the index
      strings "0", "1", ... of an array or of a string. */
  function ObjectKeys(m: Message): (r: seq<string>)
    ensures m.Catalog? ==> r == Names(m.entries)
    ensures m.Urls? ==> |r| == |m.urls|
    ensures m.Str? ==> |r| == |m.text|
    ensures !m.Catalog? ==> forall i :: 0 <= i < |r| ==> DecimalSpelling(r[i], i)
  {
    match m
    case Catalog(entries) => Names(entries)
    case Urls(urls) => IndexKeys(|urls|)
    case Str(text) => IndexKeys(|text|)
  }

  /** The keys of an `n`-element array: the spellings of 0 to n - 1. */
  function IndexKeys(n: nat): (r: seq<string>)
    ensures |r| == n
    ensures forall i :: 0 <= i < n ==> DecimalSpelling(r[i], i)
  {
    var r := seq(n, i requires 0 <= i < n => Decimal(i));
    forall i | 0 <= i < n ensures DecimalSpelling(r[i], i) { DecimalIsSpelling(i); }
    r
  }

  /** The breed list passed to the page: the keys of the payload when the
      envelope reports success, and no breeds otherwise. */
  function BreedNames(catalog: FetchResult): (r: seq<string>)
    ensures catalog.status == Error ==> r == []
    ensures catalog.status == Success && catalog.message.Catalog? ==>
      |r| == |catalog.message.entries| &&
      forall i :: 0 <= i < |r| ==> r[i] == catalog.message.entries[i].name
    ensures catalog.status == Success && catalog.message.Urls? ==> |r| == |catalog.message.urls|
    ensures catalog.status == Success && catalog.message.Str? ==> |r| == |catalog.message.text|
    ensures catalog.status == Success && !catalog.message.Catalog? ==>
      forall i :: 0 <= i < |r| ==> DecimalSpelling(r[i], i)
  {
    if catalog.status == Success then ObjectKeys(catalog.message) else []
  }

  /** Every breed name offered is the name of a catalog entry, and every entry is offered. */
  lemma BreedNamesAreCatalogKeys(catalog: FetchResult, name: string)
    requires catalog.status == Success && catalog.message.Catalog?
    ensures name in BreedNames(catalog) <==> exists e :: e in catalog.message.entries && e.name == name
  {
  }
}
