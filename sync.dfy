/**
 * Document fingerprints of the Django back end's sync app: a document is
 * turned into text (a dictionary as JSON with its keys sorted, anything
 * else with `str`), the text is hashed with SHA-256, and a later copy is
 * checked against the fingerprint stored for its type and id.
 *
 * Dictionaries are flat, with text keys and scalar values; `str` of a
 * non-dictionary is taken as given.
 */
module Sync {
  import opened Common
  import opened Hashing

  // ---------------------------------------------------------------------
  // Python's order on text
  // ---------------------------------------------------------------------

  /** `a < b` for Python strings: code point by code point, a proper prefix first. */
  predicate StrLess(a: string, b: string)
    decreases |a|
  {
    if a == [] then b != []
    else if b == [] then false
    else if a[0] != b[0] then a[0] < b[0]
    else StrLess(a[1..], b[1..])
  }

  lemma {:induction false} StrLessTotal(a: string, b: string)
    ensures a == b || StrLess(a, b) || StrLess(b, a)
    decreases |a|
  {
    if a != [] && b != [] && a[0] == b[0] {
      StrLessTotal(a[1..], b[1..]);
      if a[1..] == b[1..] {
        assert a == [a[0]] + a[1..] && b == [b[0]] + b[1..];
      }
    }
  }

  lemma {:induction false} StrLessTransitive(a: string, b: string, c: string)
    requires StrLess(a, b) && StrLess(b, c)
    ensures StrLess(a, c)
    decreases |a|
  {
    if a != [] && b != [] && c != [] && a[0] == b[0] && b[0] == c[0] {
      StrLessTransitive(a[1..], b[1..], c[1..]);
    }
  }

  lemma {:induction false} StrLessAsymmetric(a: string, b: string)
    requires StrLess(a, b)
    ensures !StrLess(b, a)
    decreases |a|
  {
    if a != [] && b != [] && a[0] == b[0] {
      StrLessAsymmetric(a[1..], b[1..]);
    }
  }

  /** Every finite non-empty set of strings has a least element. */
  lemma {:induction false} LeastExists(keys: set<string>)
    requires keys != {}
    ensures exists m :: m in keys && forall k :: k in keys && k != m ==> StrLess(m, k)
    decreases |keys|
  {
    var x :| x in keys;
    var rest := keys - {x};
    if rest == {} {
      assert keys == {x};
    } else {
      LeastExists(rest);
      var m :| m in rest && forall k :: k in rest && k != m ==> StrLess(m, k);
      StrLessTotal(m, x);
      if StrLess(m, x) {
        assert forall k :: k in keys && k != m ==> StrLess(m, k);
      } else {
        forall k | k in keys && k != x
          ensures StrLess(x, k)
        {
          if k != m {
            StrLessTransitive(x, m, k);
          }
        }
      }
    }
  }

  /** The least key. */
  function Least(keys: set<string>): (m: string)
    requires keys != {}
    ensures m in keys && forall k :: k in keys && k != m ==> StrLess(m, k)
  {
    LeastExists(keys);
    forall a, b | StrLess(a, b) ensures !StrLess(b, a) {
      StrLessAsymmetric(a, b);
    }
    var m :| m in keys && forall k :: k in keys && k != m ==> StrLess(m, k);
    m
  }

  /** The keys in increasing order, as `sorted` puts them. */
  function SortedKeys(keys: set<string>): (r: seq<string>)
    ensures |r| == |keys|
    ensures forall k :: k in r <==> k in keys
    ensures forall i, j :: 0 <= i < j < |r| ==> StrLess(r[i], r[j])
    decreases |keys|
  {
    if keys == {} then []
    else
      var m := Least(keys);
      var rest := SortedKeys(keys - {m});
      SortedPrepend(m, rest);
      [m] + rest
  }

  lemma SortedPrepend(m: string, rest: seq<string>)
    requires forall k :: k in rest ==> StrLess(m, k)
    requires forall i, j :: 0 <= i < j < |rest| ==> StrLess(rest[i], rest[j])
    ensures forall i, j :: 0 <= i < j < |[m] + rest| ==> StrLess(([m] + rest)[i], ([m] + rest)[j])
  {
    var r := [m] + rest;
    forall i, j | 0 <= i < j < |r|
      ensures StrLess(r[i], r[j])
    {
      assert r[j] == rest[j - 1];
      if i > 0 {
        assert r[i] == rest[i - 1];
      }
    }
  }

  // ---------------------------------------------------------------------
  // json.dumps(..., sort_keys=True)
  // ---------------------------------------------------------------------

  /** A JSON scalar. */
  datatype Value = Null | Flag(b: bool) | Num(n: int) | Text(s: string)

  /** A string of printable ASCII characters only, space to tilde: the
      characters `json.dumps` with `ensure_ascii` leaves unescaped. */
  predicate PrintableAscii(s: string) {
    forall i :: 0 <= i < |s| ==> 0x20 <= s[i] as int < 0x7F
  }

  lemma PrintableAsciiConcat(a: string, b: string)
    requires PrintableAscii(a) && PrintableAscii(b)
    ensures PrintableAscii(a + b)
  {
    forall i | 0 <= i < |a + b| ensures 0x20 <= (a + b)[i] as int < 0x7F {
      if i >= |a| {
        assert (a + b)[i] == b[i - |a|];
      }
    }
  }

  /** A lower-case hexadecimal digit. */
  function HexDigit(d: nat): (c: char)
    requires d < 16
    ensures 0x20 <= c as int < 0x7F
  {
    if d < 10 then ('0' as int + d) as char else ('a' as int + d - 10) as char
  }

  /** `\uXXXX`: the escape of one UTF-16 code unit, in lower-case hexadecimal. */
  function UnitEscape(n: nat): (s: string)
    requires n < 0x1_0000
    ensures |s| == 6 && PrintableAscii(s)
  {
    ['\\', 'u', HexDigit(n / 0x1000), HexDigit((n / 0x100) % 16), HexDigit((n / 0x10) % 16), HexDigit(n % 16)]
  }

  /**
   * One character as `json.dumps` writes it with `ensure_ascii`: the short
   * escapes, `\uXXXX` for other control characters and everything beyond
   * ASCII (as a surrogate pair beyond the first plane), the rest as is.
   */
  function EscapeChar(c: char): (s: string)
    ensures PrintableAscii(s)
    ensures s == [c] <==> 0x20 <= c as int < 0x7F && c != '"' && c != '\\'
  {
    if c == '"' then "\\\""
    else if c == '\\' then "\\\\"
    else if c == '\n' then "\\n"
    else if c == '\r' then "\\r"
    else if c == '\t' then "\\t"
    else if c as int == 0x08 then "\\b"
    else if c as int == 0x0C then "\\f"
    else if c as int < 0x20 || (0x7F <= c as int < 0x1_0000) then UnitEscape(c as int)
    else if c as int >= 0x1_0000 then
      var v := c as int - 0x1_0000;
      PrintableAsciiConcat(UnitEscape(0xD800 + v / 0x400), UnitEscape(0xDC00 + v % 0x400));
      UnitEscape(0xD800 + v / 0x400) + UnitEscape(0xDC00 + v % 0x400)
    else [c]
  }

  /** A string's characters escaped one by one: the output is printable ASCII whatever the input. */
  function EscapeText(s: string): (r: string)
    ensures PrintableAscii(r)
    ensures |r| >= |s|
  {
    if s == [] then []
    else
      var init := EscapeText(s[..|s| - 1]);
      var last := EscapeChar(s[|s| - 1]);
      PrintableAsciiConcat(init, last);
      init + last
  }

  /** Printable ASCII other than the quote and the backslash is written as it is. */
  lemma {:induction false} PlainTextUnescaped(s: string)
    requires forall i :: 0 <= i < |s| ==> 0x20 <= s[i] as int < 0x7F && s[i] != '"' && s[i] != '\\'
    ensures EscapeText(s) == s
  {
    if s != [] {
      PlainTextUnescaped(s[..|s| - 1]);
      assert EscapeChar(s[|s| - 1]) == [s[|s| - 1]];
      assert s[..|s| - 1] + [s[|s| - 1]] == s;
    }
  }

  /** DEL, the one ASCII character above the printable range, becomes `\u007f`. */
  lemma DeleteIsEscaped()
    ensures EscapeText([127 as char]) == "\\u007f"
  {
    assert [127 as char][..0] == [];
  }

  function Quoted(s: string): string {
    "\"" + EscapeText(s) + "\""
  }

  function ValueJson(v: Value): string {
    match v
    case Null => "null"
    case Flag(b) => if b then "true" else "false"
    case Num(n) => IntToString(n)
    case Text(s) => Quoted(s)
  }

  /** A Python dictionary: its entries in insertion order, no key twice. */
  predicate DistinctKeys(entries: seq<(string, Value)>) {
    forall i, j :: 0 <= i < j < |entries| ==> entries[i].0 != entries[j].0
  }

  /** The value under `k`. */
  function Lookup(entries: seq<(string, Value)>, k: string): Option<Value> {
    if entries == [] then None
    else if entries[|entries| - 1].0 == k then Some(entries[|entries| - 1].1)
    else Lookup(entries[..|entries| - 1], k)
  }

  lemma {:induction false} LookupFinds(entries: seq<(string, Value)>, k: string, v: Value)
    requires DistinctKeys(entries)
    ensures Lookup(entries, k) == Some(v) <==> (k, v) in entries
  {
    if entries != [] {
      var init := entries[..|entries| - 1];
      assert DistinctKeys(init);
      LookupFinds(init, k, v);
      var last := entries[|entries| - 1];
      assert entries == init + [last];
    }
  }

  function KeysOf(entries: seq<(string, Value)>): set<string> {
    set p | p in entries :: p.0
  }

  lemma {:induction false} KeyHasValue(entries: seq<(string, Value)>, k: string)
    requires k in KeysOf(entries)
    ensures Lookup(entries, k).Some?
  {
    var init := entries[..|entries| - 1];
    if entries[|entries| - 1].0 != k {
      var p :| p in entries && p.0 == k;
      assert p in init by {
        var i :| 0 <= i < |entries| && entries[i] == p;
        assert i < |entries| - 1;
        assert init[i] == p;
      }
      KeyHasValue(init, k);
    }
  }

  /** `"key": value` for each key in order, joined by `, `. */
  function Members(entries: seq<(string, Value)>, keys: seq<string>): string
    requires forall i :: 0 <= i < |keys| ==> Lookup(entries, keys[i]).Some?
  {
    if keys == [] then ""
    else
      var member := Quoted(keys[0]) + ": " + ValueJson(Lookup(entries, keys[0]).value);
      if |keys| == 1 then member else member + ", " + Members(entries, keys[1..])
  }

  /** `json.dumps(d, sort_keys=True)` with the default separators. */
  function DictJson(entries: seq<(string, Value)>): (s: string)
    ensures |s| >= 2 && s[0] == '{' && s[|s| - 1] == '}'
  {
    var keys := SortedKeys(KeysOf(entries));
    forall i | 0 <= i < |keys| ensures Lookup(entries, keys[i]).Some? {
      KeyHasValue(entries, keys[i]);
    }
    "{" + Members(entries, keys) + "}"
  }

  /** The document: a dictionary, or anything else together with its `str`. */
  datatype Document = Dict(entries: seq<(string, Value)>) | NonDict(str: string)

  function Serialised(d: Document): string {
    match d
    case Dict(entries) => DictJson(entries)
    case NonDict(str) => str
  }

  /** `generate_fingerprint`: the SHA-256 hex digest of the serialised text. */
  function Fingerprint(sha256: Sha256Fn, d: Document): (h: string)
    requires DigestShaped(sha256)
    ensures IsHexDigest(h)
    ensures h == sha256(Serialised(d))
  {
    sha256(Serialised(d))
  }

  lemma SameEntriesSameKeys(e1: seq<(string, Value)>, e2: seq<(string, Value)>)
    requires forall p :: p in e1 <==> p in e2
    ensures KeysOf(e1) == KeysOf(e2)
  {
    forall k | k in KeysOf(e1) ensures k in KeysOf(e2) {
      var p :| p in e1 && p.0 == k;
      assert p in e2;
    }
    forall k | k in KeysOf(e2) ensures k in KeysOf(e1) {
      var p :| p in e2 && p.0 == k;
      assert p in e1;
    }
  }

  /** `json.dumps(d, sort_keys=True)` does not depend on the order in which the keys were inserted. */
  lemma DictJsonIgnoresKeyOrder(e1: seq<(string, Value)>, e2: seq<(string, Value)>)
    requires DistinctKeys(e1) && DistinctKeys(e2)
    requires forall p :: p in e1 <==> p in e2
    ensures DictJson(e1) == DictJson(e2)
  {
    SameEntriesSameKeys(e1, e2);
    var keys := SortedKeys(KeysOf(e1));
    forall k | k in keys ensures Lookup(e1, k) == Lookup(e2, k) {
      KeyHasValue(e1, k);
      var v := Lookup(e1, k).value;
      LookupFinds(e1, k, v);
      LookupFinds(e2, k, v);
      KeyHasValue(e2, k);
      LookupFinds(e2, k, Lookup(e2, k).value);
      LookupFinds(e1, k, Lookup(e2, k).value);
    }
    forall i | 0 <= i < |keys| ensures Lookup(e1, keys[i]).Some? {
      KeyHasValue(e1, keys[i]);
    }
    MembersAgree(e1, e2, keys);
  }

  /** Two dictionaries with the same entries in different insertion orders get the same fingerprint. */
  lemma FingerprintIgnoresKeyOrder(sha256: Sha256Fn, e1: seq<(string, Value)>, e2: seq<(string, Value)>)
    requires DigestShaped(sha256) && DistinctKeys(e1) && DistinctKeys(e2)
    requires forall p :: p in e1 <==> p in e2
    ensures Fingerprint(sha256, Dict(e1)) == Fingerprint(sha256, Dict(e2))
  {
    DictJsonIgnoresKeyOrder(e1, e2);
  }

  lemma {:induction false} MembersAgree(e1: seq<(string, Value)>, e2: seq<(string, Value)>, keys: seq<string>)
    requires forall i :: 0 <= i < |keys| ==> Lookup(e1, keys[i]).Some?
    requires forall k :: k in keys ==> Lookup(e1, k) == Lookup(e2, k)
    ensures Members(e1, keys) == Members(e2, keys)
  {
    if |keys| > 1 {
      MembersAgree(e1, e2, keys[1..]);
    }
  }

  // ---------------------------------------------------------------------
  // verify_document_integrity
  // ---------------------------------------------------------------------

  /** `DocumentFingerprint` rows keyed by (document type, document id), the pair the table keeps unique. */
  type FingerprintTable = map<(string, string), string>

  /** A stored fingerprint for the document that equals the given one. */
  function VerifyIntegrity(table: FingerprintTable, documentType: string, documentId: string, fingerprint: string): (ok: bool)
    ensures (documentType, documentId) !in table ==> !ok
    ensures ok <==> (documentType, documentId) in table && table[(documentType, documentId)] == fingerprint
  {
    if (documentType, documentId) in table then table[(documentType, documentId)] == fingerprint else false
  }

  /** A document whose fingerprint was stored verifies as long as it is unchanged in text. */
  lemma StoredDocumentVerifies(sha256: Sha256Fn, table: FingerprintTable, documentType: string, documentId: string, d: Document, later: Document)
    requires DigestShaped(sha256) && Serialised(later) == Serialised(d)
    ensures VerifyIntegrity(table[(documentType, documentId) := Fingerprint(sha256, d)], documentType, documentId,
                            Fingerprint(sha256, later))
  {
  }
}
