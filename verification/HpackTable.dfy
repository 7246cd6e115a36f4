// http2/hpack.v: the static table and the dynamic table with its size accounting (RFC 7541 section 4).
module HpackTable {
  import opened Bytes

  const STATIC_COUNT := 61

  /** A header field: two octet strings. */
  datatype Field = Field(name: seq<byte>, value: seq<byte>)

  /** The dynamic table, newest entry first, under its current limit and the protocol ceiling. */
  datatype Table = Table(entries: seq<Field>, curMax: nat, maxSize: nat)

  function EntrySize(f: Field): nat {
    |f.name| + |f.value| + 32
  }

  function SizeOf(es: seq<Field>): nat {
    if es == [] then 0 else EntrySize(es[0]) + SizeOf(es[1..])
  }

  ghost predicate ValidTable(t: Table) {
    SizeOf(t.entries) <= t.curMax <= t.maxSize
  }

  /** Drop the oldest entries until the rest fits. */
  function Evict(es: seq<Field>, max: nat): seq<Field> {
    if SizeOf(es) > max && es != [] then Evict(es[..|es| - 1], max) else es
  }

  /** What the code does: insert at the head, then evict. */
  function Insert(t: Table, f: Field): Table {
    t.(entries := Evict([f] + t.entries, t.curMax))
  }

  function Resize(t: Table, max: nat): Table {
    t.(entries := Evict(t.entries, max), curMax := max)
  }

  /** The rule of RFC 7541 section 4.4: evict until the new entry fits, then insert it; an entry larger than
      the table empties it and is not inserted. */
  function EvictThenInsert(es: seq<Field>, f: Field, max: nat): seq<Field> {
    if EntrySize(f) > max then [] else [f] + Evict(es, max - EntrySize(f))
  }

  lemma {:induction false} SizeOfSplit(es: seq<Field>, k: nat)
    requires k <= |es|
    ensures SizeOf(es) == SizeOf(es[..k]) + SizeOf(es[k..])
  {
    if k > 0 {
      SizeOfSplit(es[1..], k - 1);
      assert es[..k][1..] == es[1..][..k - 1];
      assert es[1..][k - 1..] == es[k..];
    } else {
      assert es[..0] == [] && es[0..] == es;
    }
  }

  lemma SizeOfLast(es: seq<Field>)
    requires es != []
    ensures SizeOf(es) == SizeOf(es[..|es| - 1]) + EntrySize(es[|es| - 1])
  {
    var n := |es| - 1;
    SizeOfSplit(es, n);
    assert es[n..][1..] == [];
  }

  /** Eviction keeps exactly the longest newest-first prefix that fits. */
  lemma {:induction false} EvictLongest(es: seq<Field>, max: nat)
    ensures Evict(es, max) <= es && SizeOf(Evict(es, max)) <= max
    ensures forall k :: |Evict(es, max)| < k <= |es| ==> SizeOf(es[..k]) > max
  {
    if SizeOf(es) > max && es != [] {
      var n := |es| - 1;
      EvictLongest(es[..n], max);
      forall k | |Evict(es, max)| < k <= |es| ensures SizeOf(es[..k]) > max {
        if k <= n {
          assert es[..n][..k] == es[..k];
        } else {
          assert es[..k] == es;
        }
      }
    }
  }

  /** Inserting and then evicting is the rule of section 4.4, oversized entries included. */
  lemma {:induction false} InsertIsEvictThenInsert(es: seq<Field>, f: Field, max: nat)
    ensures Evict([f] + es, max) == EvictThenInsert(es, f, max)
  {
    var all := [f] + es;
    assert all[1..] == es;
    if SizeOf(all) > max {
      if es == [] {
        assert all[..0] == [];
      } else {
        var n := |es| - 1;
        InsertIsEvictThenInsert(es[..n], f, max);
        assert all[..|all| - 1] == [f] + es[..n];
      }
    }
  }

  lemma InsertValid(t: Table, f: Field)
    requires t.curMax <= t.maxSize
    ensures ValidTable(Insert(t, f))
    ensures Insert(t, f).entries == EvictThenInsert(t.entries, f, t.curMax)
  {
    EvictLongest([f] + t.entries, t.curMax);
    InsertIsEvictThenInsert(t.entries, f, t.curMax);
  }

  lemma ResizeValid(t: Table, max: nat)
    requires max <= t.maxSize
    ensures ValidTable(Resize(t, max))
  {
    EvictLongest(t.entries, max);
  }

  // ----- lookup

  /** Index 1..61 of RFC 7541 Appendix A. */
  function StaticText(i: nat): (string, string) {
    match i
    case 1 => (":authority", "")
    case 2 => (":method", "GET")
    case 3 => (":method", "POST")
    case 4 => (":path", "/")
    case 5 => (":path", "/index.html")
    case 6 => (":scheme", "http")
    case 7 => (":scheme", "https")
    case 8 => (":status", "200")
    case 9 => (":status", "204")
    case 10 => (":status", "206")
    case 11 => (":status", "304")
    case 12 => (":status", "400")
    case 13 => (":status", "404")
    case 14 => (":status", "500")
    case 15 => ("accept-charset", "")
    case 16 => ("accept-encoding", "gzip, deflate")
    case 17 => ("accept-language", "")
    case 18 => ("accept-ranges", "")
    case 19 => ("accept", "")
    case 20 => ("access-control-allow-origin", "")
    case 21 => ("age", "")
    case 22 => ("allow", "")
    case 23 => ("authorization", "")
    case 24 => ("cache-control", "")
    case 25 => ("content-disposition", "")
    case 26 => ("content-encoding", "")
    case 27 => ("content-language", "")
    case 28 => ("content-length", "")
    case 29 => ("content-location", "")
    case 30 => ("content-range", "")
    case 31 => ("content-type", "")
    case 32 => ("cookie", "")
    case 33 => ("date", "")
    case 34 => ("etag", "")
    case 35 => ("expect", "")
    case 36 => ("expires", "")
    case 37 => ("from", "")
    case 38 => ("host", "")
    case 39 => ("if-match", "")
    case 40 => ("if-modified-since", "")
    case 41 => ("if-none-match", "")
    case 42 => ("if-range", "")
    case 43 => ("if-unmodified-since", "")
    case 44 => ("last-modified", "")
    case 45 => ("link", "")
    case 46 => ("location", "")
    case 47 => ("max-forwards", "")
    case 48 => ("proxy-authenticate", "")
    case 49 => ("proxy-authorization", "")
    case 50 => ("range", "")
    case 51 => ("referer", "")
    case 52 => ("refresh", "")
    case 53 => ("retry-after", "")
    case 54 => ("server", "")
    case 55 => ("set-cookie", "")
    case 56 => ("strict-transport-security", "")
    case 57 => ("transfer-encoding", "")
    case 58 => ("user-agent", "")
    case 59 => ("vary", "")
    case 60 => ("via", "")
    case 61 => ("www-authenticate", "")
    case _ => ("", "")
  }

  function StaticField(i: nat): Field {
    Field(Ascii(StaticText(i).0), Ascii(StaticText(i).1))
  }

  /** Static entries first, then the dynamic ones, newest first; index 0 and indexes past the end name nothing. */
  function Lookup(t: Table, idx: nat): Option<Field> {
    if idx == 0 then None
    else if idx <= STATIC_COUNT then Some(StaticField(idx))
    else if idx - 62 >= |t.entries| then None
    else Some(t.entries[idx - 62])
  }
}
