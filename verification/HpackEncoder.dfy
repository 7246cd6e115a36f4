// http2/hpack.v: the stateless encoder the server builds response blocks with.
module HpackEncoder {
  import opened Bytes
  import opened HpackInt
  import opened HpackTable
  import opened HpackBlock

  /** One call of an encode_* helper. */
  datatype Item =
    | Status(code: nat)
    | Static(idx: nat)
    | NamedLiteral(nameIdx: nat, value: seq<byte>)
    | NewLiteral(name: seq<byte>, value: seq<byte>)

  /** The pre-indexed status codes; 0 for the others. */
  function StatusIndex(code: nat): nat {
    match code
    case 200 => 8
    case 204 => 9
    case 206 => 10
    case 304 => 11
    case 400 => 12
    case 404 => 13
    case 500 => 14
    case _ => 0
  }

  function Digits(code: nat): seq<byte> {
    [48 + code / 100 % 10, 48 + code / 10 % 10, 48 + code % 10]
  }

  function StrBytes(s: seq<byte>): seq<byte> {
    Powers();
    IntBytes(0x00, 7, |s|) + s
  }

  /** The representation each helper writes. */
  function ItemRep(item: Item): Rep {
    match item
    case Status(code) =>
      if StatusIndex(code) != 0 then Indexed(StatusIndex(code)) else NotIndexing(Literal(8, [], Digits(code)))
    case Static(idx) => Indexed(idx)
    case NamedLiteral(i, value) => NotIndexing(Literal(i, [], value))
    case NewLiteral(name, value) => NotIndexing(Literal(0, name, value))
  }

  /** The octets each helper appends. */
  function ItemBytes(item: Item): seq<byte> {
    Powers();
    match item
    case Status(code) =>
      if StatusIndex(code) != 0 then IntBytes(0x80, 7, StatusIndex(code))
      else IntBytes(0x00, 4, 8) + StrBytes(Digits(code))
    case Static(idx) => IntBytes(0x80, 7, idx)
    case NamedLiteral(i, value) => IntBytes(0x00, 4, i) + StrBytes(value)
    case NewLiteral(name, value) => [0x00] + StrBytes(name) + StrBytes(value)
  }

  function ItemsBytes(items: seq<Item>): seq<byte> {
    if items == [] then [] else ItemBytes(items[0]) + ItemsBytes(items[1..])
  }

  /** The field a caller of the helper means; a status is its three decimal digits. */
  function ItemField(item: Item): Field {
    match item
    case Status(code) => Field(Ascii(":status"), Digits(code))
    case Static(idx) => StaticField(idx)
    case NamedLiteral(i, value) => Field(StaticField(i).name, value)
    case NewLiteral(name, value) => Field(name, value)
  }

  function ItemFields(items: seq<Item>): seq<Field> {
    if items == [] then [] else [ItemField(items[0])] + ItemFields(items[1..])
  }

  function FieldsLength(fs: seq<Field>): nat {
    if fs == [] then 0 else |fs[0].name| + |fs[0].value| + FieldsLength(fs[1..])
  }

  predicate ValidItem(item: Item) {
    match item
    case Status(code) => 100 <= code <= 999
    case Static(idx) => 1 <= idx <= STATIC_COUNT
    case NamedLiteral(i, value) => 1 <= i <= STATIC_COUNT
    case NewLiteral(_, _) => true
  }

  // ----- the helpers

  method EncodeStr(out0: seq<byte>, s: seq<byte>) returns (out: seq<byte>)
    ensures out == out0 + StrBytes(s)
  {
    Powers();
    hide Pow2, IntBytes;
    out := EncodeInt(out0, 0x00, 7, |s|);
    if |s| > 0 {
      out := out + s;
    }
  }

  method EncodeIndexed(out0: seq<byte>, idx: nat) returns (out: seq<byte>)
    ensures out == out0 + ItemBytes(Static(idx))
  {
    Powers();
    out := EncodeInt(out0, 0x80, 7, idx);
  }

  method EncodeLiteralNameIdx(out0: seq<byte>, nameIdx: nat, value: seq<byte>) returns (out: seq<byte>)
    ensures out == out0 + ItemBytes(NamedLiteral(nameIdx, value))
  {
    Powers();
    hide Pow2, IntBytes, StrBytes;
    out := EncodeInt(out0, 0x00, 4, nameIdx);
    out := EncodeStr(out, value);
  }

  method EncodeLiteral(out0: seq<byte>, name: seq<byte>, value: seq<byte>) returns (out: seq<byte>)
    ensures out == out0 + ItemBytes(NewLiteral(name, value))
  {
    hide StrBytes;
    out := out0 + [0x00];
    out := EncodeStr(out, name);
    out := EncodeStr(out, value);
  }

  method EncodeStatus(out0: seq<byte>, status: nat) returns (out: seq<byte>)
    ensures out == out0 + ItemBytes(Status(status))
  {
    match status
    case 200 => out := EncodeIndexed(out0, 8);
    case 204 => out := EncodeIndexed(out0, 9);
    case 206 => out := EncodeIndexed(out0, 10);
    case 304 => out := EncodeIndexed(out0, 11);
    case 400 => out := EncodeIndexed(out0, 12);
    case 404 => out := EncodeIndexed(out0, 13);
    case 500 => out := EncodeIndexed(out0, 14);
    case _ =>
      Powers();
      hide Pow2, IntBytes;
      out := EncodeInt(out0, 0x00, 4, 8);
      out := EncodeInt(out, 0x00, 7, 3);
      out := out + [48 + status / 100 % 10];
      out := out + [48 + status / 10 % 10];
      out := out + [48 + status % 10];
  }

  // ----- round trip

  lemma PlainString(s: seq<byte>)
    requires |s| <= LARGEST_INT
    ensures StrCoding(StrBytes(s), s)
  {
  }

  lemma ItemIsCoded(item: Item)
    requires ValidItem(item) && |ItemField(item).name| + |ItemField(item).value| <= LARGEST_INT
    ensures RepCoding(ItemBytes(item), ItemRep(item))
  {
    Powers();
    assert IntBytes(0x00, 4, 0) == [0x00];
    hide IntBytes, Pow2, StrBytes, StrCoding, StaticText;
    match item
    case Status(code) =>
      PlainString(Digits(code));
      assert StatusIndex(code) == 0 ==> LiteralCoding(ItemBytes(item), 0x00, 4, Literal(8, [], Digits(code)));
    case Static(idx) =>
    case NamedLiteral(i, value) =>
      PlainString(value);
      assert LiteralCoding(ItemBytes(item), 0x00, 4, Literal(i, [], value));
    case NewLiteral(name, value) =>
      PlainString(name);
      PlainString(value);
      assert LiteralCoding(ItemBytes(item), 0x00, 4, Literal(0, name, value));
  }

  lemma StatusField(code: nat)
    requires StatusIndex(code) != 0
    ensures StaticField(StatusIndex(code)) == Field(Ascii(":status"), Digits(code))
  {
    var v := StaticField(StatusIndex(code)).value;
    assert |v| == 3 && v == [v[0], v[1], v[2]];
  }

  /** Applying an item's representation emits its field and leaves the table alone. */
  lemma ItemApplies(p: Progress, item: Item)
    requires ValidItem(item)
    requires p.decoded + |ItemField(item).name| + |ItemField(item).value| <= MAX_DECODED_BLOCK
    ensures Apply(p, ItemRep(item)) ==
            Some(Progress(p.table, p.decoded + |ItemField(item).name| + |ItemField(item).value|,
                          true, p.fields + [ItemField(item)]))
  {
    match item
    case Status(code) =>
      if StatusIndex(code) != 0 {
        StatusField(code);
      }
    case _ =>
  }

  ghost predicate AllValid(items: seq<Item>) {
    forall i :: 0 <= i < |items| ==> ValidItem(items[i])
  }

  ghost function Reps(items: seq<Item>): seq<Rep> {
    if items == [] then [] else [ItemRep(items[0])] + Reps(items[1..])
  }

  lemma {:induction false} ItemsAreCoded(items: seq<Item>)
    requires AllValid(items) == true
    requires FieldsLength(ItemFields(items)) <= LARGEST_INT
    ensures BlockCoding(ItemsBytes(items), Reps(items))
  {
    hide ItemBytes, ItemRep, ItemField, RepCoding, ValidItem;
    if items != [] {
      var fs := ItemFields(items);
      assert fs[1..] == ItemFields(items[1..]);
      ItemIsCoded(items[0]);
      ItemsAreCoded(items[1..]);
      assert Reps(items)[1..] == Reps(items[1..]);
    }
  }

  lemma InterpretStep(p: Progress, r: Rep, reps: seq<Rep>, q: Progress)
    requires Apply(p, r) == Some(q)
    ensures Interpret(p, [r] + reps) == Interpret(q, reps)
  {
    hide Apply;
    assert ([r] + reps)[1..] == reps;
  }

  lemma ItemsCons(items: seq<Item>)
    requires items != [] && AllValid(items) == true
    ensures ValidItem(items[0]) && AllValid(items[1..]) == true
    ensures ItemFields(items) == [ItemField(items[0])] + ItemFields(items[1..])
    ensures Reps(items) == [ItemRep(items[0])] + Reps(items[1..])
    ensures FieldsLength(ItemFields(items)) ==
            |ItemField(items[0]).name| + |ItemField(items[0]).value| + FieldsLength(ItemFields(items[1..]))
  {
    hide ItemField, ValidItem;
    assert ItemFields(items)[1..] == ItemFields(items[1..]);
  }

  lemma {:induction false} ItemsInterpret(p: Progress, items: seq<Item>)
    requires AllValid(items) == true
    requires p.decoded + FieldsLength(ItemFields(items)) <= MAX_DECODED_BLOCK
    ensures Interpret(p, Reps(items)) == Decoded(p.table, p.fields + ItemFields(items), true)
    decreases |items|
  {
    if items == [] {
      assert p.fields + [] == p.fields;
    } else {
      hide *;
      ItemsCons(items);
      var f, rest := ItemField(items[0]), ItemFields(items[1..]);
      ItemApplies(p, items[0]);
      var q := Progress(p.table, p.decoded + |f.name| + |f.value|, true, p.fields + [f]);
      InterpretStep(p, ItemRep(items[0]), Reps(items[1..]), q);
      ItemsInterpret(q, items[1..]);
      Assoc(p.fields, [f], rest);
    }
  }

  /** A block built by any calls of the helpers decodes, in any decoder state, to exactly the fields they
      meant, and leaves the dynamic table as it was. */
  lemma EncoderRoundTrip(t: Table, items: seq<Item>)
    requires AllValid(items) == true
    requires FieldsLength(ItemFields(items)) <= MAX_DECODED_BLOCK
    ensures DecodeBlock(t, ItemsBytes(items)) == Decoded(t, ItemFields(items), true)
  {
    assert MAX_DECODED_BLOCK <= LARGEST_INT;
    hide *;
    ItemsAreCoded(items);
    DecodeInvertsEncoding(t, ItemsBytes(items), Reps(items));
    ItemsInterpret(Progress(t, 0, false, []), items);
    assert [] + ItemFields(items) == ItemFields(items);
  }
}
