/**
 * The `Feedback` record and the serialization the feedback page keeps in
 * storage. The page uses `JSON.stringify`/`JSON.parse`; the model replaces
 * JSON's syntax by a length-prefixed text format and proves the one
 * property the page relies on: parsing what was serialized gives the list
 * back.
 *
 * Format: a string is `<length>:<chars>`; an entry is its four fields in
 * order (nome, mensagem, rating as decimal text, data); a list is
 * `<count>:` followed by its entries.
 */
module FeedbackCodec {
  import opened Wrappers
  import opened JsNumber

  datatype Feedback = Feedback(nome: string, mensagem: string, rating: int, data: string)

  function SerializeString(s: string): string {
    NatToString(|s|) + ":" + s
  }

  function SerializeFields(fields: seq<string>): string {
    if fields == [] then "" else SerializeString(fields[0]) + SerializeFields(fields[1..])
  }

  /** The four fields of an entry, in declaration order, as text. */
  function Fields(f: Feedback): seq<string> {
    [f.nome, f.mensagem, IntToString(f.rating), f.data]
  }

  function SerializeEntries(fs: seq<Feedback>): string {
    if fs == [] then "" else SerializeFields(Fields(fs[0])) + SerializeEntries(fs[1..])
  }

  /** `JSON.stringify(feedbacks)`. */
  function Serialize(fs: seq<Feedback>): string {
    NatToString(|fs|) + ":" + SerializeEntries(fs)
  }

  /** Reads `<digits>:` and returns the number and what follows the colon. */
  function ReadCount(s: string): Option<(nat, string)> {
    var ds := DigitPrefix(s);
    if ds == [] || |ds| == |s| || s[|ds|] != ':' then None
    else Some((Value(ds), s[|ds| + 1..]))
  }

  function ReadString(s: string): Option<(string, string)> {
    match ReadCount(s)
    case None => None
    case Some((n, t)) => if n <= |t| then Some((t[..n], t[n..])) else None
  }

  /** Reads `count` strings in a row. */
  function ReadFields(count: nat, s: string): (r: Option<(seq<string>, string)>)
    ensures r.Some? ==> |r.value.0| == count
  {
    if count == 0 then Some(([], s))
    else
      match ReadString(s)
      case None => None
      case Some((field, rest)) =>
        match ReadFields(count - 1, rest)
        case None => None
        case Some((fields, tail)) => Some(([field] + fields, tail))
  }

  function ReadFeedback(s: string): Option<(Feedback, string)> {
    match ReadFields(4, s)
    case None => None
    case Some((fields, rest)) =>
      match ParseInt(fields[2])
      case None => None
      case Some(rating) => Some((Feedback(fields[0], fields[1], rating, fields[3]), rest))
  }

  function ReadEntries(count: nat, s: string): (r: Option<(seq<Feedback>, string)>)
    ensures r.Some? ==> |r.value.0| == count
  {
    if count == 0 then Some(([], s))
    else
      match ReadFeedback(s)
      case None => None
      case Some((f, rest)) =>
        match ReadEntries(count - 1, rest)
        case None => None
        case Some((fs, tail)) => Some(([f] + fs, tail))
  }

  /** `JSON.parse(text)`; `None` where `JSON.parse` would throw. */
  function Deserialize(text: string): Option<seq<Feedback>> {
    match ReadCount(text)
    case None => None
    case Some((n, t)) =>
      match ReadEntries(n, t)
      case None => None
      case Some((fs, rest)) => if rest == [] then Some(fs) else None
  }

  lemma ReadCountOf(n: nat, rest: string)
    ensures ReadCount(NatToString(n) + ":" + rest) == Some((n, rest))
  {
    var ds := NatToString(n);
    var s := ds + ":" + rest;
    assert s == ds + (":" + rest);
    DigitPrefixStopsAt(ds, ":" + rest);
    ValueOfNatToString(n);
    assert s[|ds| + 1..] == rest;
  }

  lemma ReadStringOf(x: string, rest: string)
    ensures ReadString(SerializeString(x) + rest) == Some((x, rest))
  {
    var s := SerializeString(x) + rest;
    assert s == NatToString(|x|) + ":" + (x + rest);
    ReadCountOf(|x|, x + rest);
    assert (x + rest)[..|x|] == x && (x + rest)[|x|..] == rest;
  }

  lemma ReadFieldsStep(count: nat, s: string, field: string, tail: string, fields: seq<string>, rest: string)
    requires count > 0
    requires ReadString(s) == Some((field, tail))
    requires ReadFields(count - 1, tail) == Some((fields, rest))
    ensures ReadFields(count, s) == Some(([field] + fields, rest))
  {
  }

  lemma SerializeFieldsCons(fields: seq<string>, rest: string)
    requires fields != []
    ensures SerializeFields(fields) + rest == SerializeString(fields[0]) + (SerializeFields(fields[1..]) + rest)
  {
  }

  lemma ReadFieldsOfCons(fields: seq<string>, rest: string)
    requires fields != []
    requires ReadFields(|fields[1..]|, SerializeFields(fields[1..]) + rest) == Some((fields[1..], rest))
    ensures ReadFields(|fields|, SerializeFields(fields) + rest) == Some((fields, rest))
  {
    var head, more := fields[0], fields[1..];
    var tail := SerializeFields(more) + rest;
    var whole := SerializeFields(fields) + rest;
    SerializeFieldsCons(fields, rest);
    ReadStringOf(head, tail);
    ReadFieldsStep(|fields|, whole, head, tail, more, rest);
    assert [head] + more == fields;
  }

  lemma {:induction false} ReadFieldsOf(fields: seq<string>, rest: string)
    ensures ReadFields(|fields|, SerializeFields(fields) + rest) == Some((fields, rest))
    decreases |fields|
  {
    if fields == [] {
      assert SerializeFields(fields) + rest == rest;
    } else {
      ReadFieldsOf(fields[1..], rest);
      ReadFieldsOfCons(fields, rest);
    }
  }

  lemma ReadFeedbackOf(f: Feedback, rest: string)
    ensures ReadFeedback(SerializeFields(Fields(f)) + rest) == Some((f, rest))
  {
    ReadFieldsOf(Fields(f), rest);
    ParseIntToString(f.rating);
  }

  lemma ReadEntriesStep(count: nat, s: string, f: Feedback, tail: string, fs: seq<Feedback>, rest: string)
    requires count > 0
    requires ReadFeedback(s) == Some((f, tail))
    requires ReadEntries(count - 1, tail) == Some((fs, rest))
    ensures ReadEntries(count, s) == Some(([f] + fs, rest))
  {
  }

  lemma SerializeEntriesCons(fs: seq<Feedback>, rest: string)
    requires fs != []
    ensures SerializeEntries(fs) + rest == SerializeFields(Fields(fs[0])) + (SerializeEntries(fs[1..]) + rest)
  {
  }

  lemma ReadEntriesOfCons(fs: seq<Feedback>, rest: string)
    requires fs != []
    requires ReadEntries(|fs[1..]|, SerializeEntries(fs[1..]) + rest) == Some((fs[1..], rest))
    ensures ReadEntries(|fs|, SerializeEntries(fs) + rest) == Some((fs, rest))
  {
    var f, more := fs[0], fs[1..];
    var tail := SerializeEntries(more) + rest;
    var whole := SerializeEntries(fs) + rest;
    SerializeEntriesCons(fs, rest);
    ReadFeedbackOf(f, tail);
    ReadEntriesStep(|fs|, whole, f, tail, more, rest);
    assert [f] + more == fs;
  }

  lemma {:induction false} ReadEntriesOf(fs: seq<Feedback>, rest: string)
    ensures ReadEntries(|fs|, SerializeEntries(fs) + rest) == Some((fs, rest))
    decreases |fs|
  {
    if fs == [] {
      assert SerializeEntries(fs) + rest == rest;
    } else {
      ReadEntriesOf(fs[1..], rest);
      ReadEntriesOfCons(fs, rest);
    }
  }

  /** Parsing a serialized list gives the same list back, entry for entry. */
  lemma DeserializeSerialize(fs: seq<Feedback>)
    ensures Deserialize(Serialize(fs)) == Some(fs)
  {
    ReadCountOf(|fs|, SerializeEntries(fs));
    ReadEntriesOf(fs, []);
    assert SerializeEntries(fs) + [] == SerializeEntries(fs);
  }

  /** Two lists with the same serialization are the same list. */
  lemma SerializeInjective(a: seq<Feedback>, b: seq<Feedback>)
    requires Serialize(a) == Serialize(b)
    ensures a == b
  {
    DeserializeSerialize(a);
    DeserializeSerialize(b);
  }
}
