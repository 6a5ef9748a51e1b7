/** The tag-length-value layer of EmvQrParser.kt: `parseTlvObjects`, which cuts a
    string into records of a two-character id, a two-digit length and that many
    characters of value, and `addField`, which writes one such record. */
module TlvCodec {
  import opened Wrappers
  import opened Text
  import opened EmvQrModel
  import Seqs

  /** The two exceptions the codec can raise: `toInt()` on a length or id that is not
      a number, and `substring` with a negative length or too short an input. */
  datatype Failure = NumberFormat(text: string) | IndexOutOfBounds

  type Records = seq<TlvObject>

  /** A record as `parseTlvObjects` builds it. */
  predicate Canonical(o: TlvObject) {
    |o.id| == 2 && 0 <= o.length <= 99 && o.length == |o.value| && o.children == []
  }

  predicate AllCanonical(objs: Records) {
    forall i | 0 <= i < |objs| :: Canonical(objs[i])
  }

  /** Characters the records account for: id, length and value of each. */
  function Consumed(objs: Records): int {
    if objs == [] then 0 else 4 + objs[0].length + Consumed(objs[1..])
  }

  /** The records already found, in front of whatever the rest of the input gives. */
  function Prepend(objs: Records, r: Result<Records, Failure>): Result<Records, Failure> {
    match r
    case Ok(rest) => Ok(objs + rest)
    case Err(e) => Err(e)
  }

  /** What `parseTlvObjects(s)` returns or throws. Reading stops without error when
      fewer than four characters are left or when the declared length runs past the
      end; a length that is not a number, or is negative, raises. */
  function Tokens(s: string): (r: Result<Records, Failure>)
    ensures |s| < 4 ==> r == Ok([])
    decreases |s|
  {
    if |s| < 4 then Ok([])
    else
      match ToInt2(s[2..4])
      case None => Err(NumberFormat(s[2..4]))
      case Some(n) =>
        if n < 0 then Err(IndexOutOfBounds)
        else if 4 + n > |s| then Ok([])
        else
          var o := TlvObject(s[..2], n, s[4..4 + n], []);
          Prepend([o], Tokens(s[4 + n..]))
  }

  /** Every record read has a two-character id and a value of its declared length,
      and the records never account for more characters than the input has. */
  lemma {:induction false} TokensWellFormed(s: string)
    ensures Tokens(s).Ok? ==> AllCanonical(Tokens(s).value)
    ensures Tokens(s).Ok? ==> Consumed(Tokens(s).value) <= |s|
    decreases |s|
  {
    if |s| >= 4 && ToInt2(s[2..4]).Some? {
      var n := ToInt2(s[2..4]).value;
      if 0 <= n && 4 + n <= |s| {
        var o := TlvObject(s[..2], n, s[4..4 + n], []);
        TokensWellFormed(s[4 + n..]);
        match Tokens(s[4 + n..]) {
          case Ok(rest) =>
            var objs := [o] + rest;
            assert Tokens(s) == Ok(objs);
            assert objs[1..] == rest;
            assert forall i | 1 <= i < |objs| :: objs[i] == rest[i - 1];
          case Err(_) =>
        }
      }
    }
  }

  /** The records lie in s one after another from its start: each record's id, a
      length text that `toInt()` reads as its length, and its value. */
  predicate LaidOut(objs: Records, s: string)
    decreases |objs|
  {
    objs == []
    || (0 <= objs[0].length && 4 + objs[0].length <= |s|
        && s[..2] == objs[0].id && ToInt2(s[2..4]) == Some(objs[0].length)
        && s[4..4 + objs[0].length] == objs[0].value
        && LaidOut(objs[1..], s[4 + objs[0].length..]))
  }

  /** The records read from s lie in s, in the order they were read. */
  lemma {:induction false} TokensLaidOut(s: string)
    ensures Tokens(s).Ok? ==> LaidOut(Tokens(s).value, s)
    decreases |s|
  {
    if |s| >= 4 && ToInt2(s[2..4]).Some? {
      var n := ToInt2(s[2..4]).value;
      if 0 <= n && 4 + n <= |s| {
        var o := TlvObject(s[..2], n, s[4..4 + n], []);
        TokensLaidOut(s[4 + n..]);
        match Tokens(s[4 + n..]) {
          case Ok(rest) =>
            assert Tokens(s) == Ok([o] + rest);
            assert ([o] + rest)[1..] == rest;
          case Err(_) =>
        }
      }
    }
  }

  /** A record written back as id, the two-digit length of its value, and the value. */
  function RecordText(o: TlvObject): string {
    o.id + FormatTwoDigits(|o.value|) + o.value
  }

  function RecordsText(objs: Records): string {
    if objs == [] then "" else RecordText(objs[0]) + RecordsText(objs[1..])
  }

  /** A record laid out at the start of a text whose length text is two digits,
      written back, is that start. */
  lemma RecordTextAt(o: TlvObject, s: string)
    requires 0 <= o.length && 4 + o.length <= |s|
    requires s[..2] == o.id && ToInt2(s[2..4]) == Some(o.length) && s[4..4 + o.length] == o.value
    requires IsDigit(s[2])
    ensures RecordText(o) == s[..4 + o.length]
  {
    var lengthText := s[2..4];
    assert lengthText[0] == s[2] && lengthText[1] == s[3];
    ToIntOfDigits(lengthText);
    assert FormatTwoDigits(o.length) == lengthText;
  }

  /** Every complete record the reader meets in s has a length text of two digits,
      rather than a sign and a digit ("+5", "-0"), which `toInt()` also accepts. */
  predicate DigitLengths(s: string)
    decreases |s|
  {
    |s| >= 4 && ToInt2(s[2..4]).Some? && 0 <= ToInt2(s[2..4]).value && 4 + ToInt2(s[2..4]).value <= |s|
    ==> IsDigit(s[2]) && DigitLengths(s[4 + ToInt2(s[2..4]).value..])
  }

  /** Records that lie in a text whose lengths are written in digits, written back
      one after another, give the start of that text. */
  lemma {:induction false} LaidOutPrefix(objs: Records, s: string)
    requires LaidOut(objs, s) && DigitLengths(s)
    ensures |RecordsText(objs)| <= |s| && s[..|RecordsText(objs)|] == RecordsText(objs)
    decreases |objs|
  {
    if objs != [] {
      var n := objs[0].length;
      var t := s[4 + n..];
      LaidOutPrefix(objs[1..], t);
      RecordTextAt(objs[0], s);
      var rest := RecordsText(objs[1..]);
      assert RecordsText(objs) == RecordText(objs[0]) + rest;
      Seqs.TakeSplit(s, 4 + n, |rest|);
    }
  }

  /** Conversely, when the records read, written back, are the start of the input,
      every length text the reader met was two digits. */
  lemma {:induction false} PrefixDigitLengths(s: string)
    requires Tokens(s).Ok?
    requires var text := RecordsText(Tokens(s).value); |text| <= |s| && s[..|text|] == text
    ensures DigitLengths(s)
    decreases |s|
  {
    if |s| >= 4 && ToInt2(s[2..4]).Some? && 0 <= ToInt2(s[2..4]).value && 4 + ToInt2(s[2..4]).value <= |s| {
      var n := ToInt2(s[2..4]).value;
      var o := TlvObject(s[..2], n, s[4..4 + n], []);
      var after := s[4 + n..];
      TokensStep(s, n);
      var rest := Tokens(after).value;
      var objs := [o] + rest;
      assert Tokens(s) == Ok(objs);
      assert objs[0] == o && objs[1..] == rest;
      var head := RecordText(o);
      var tail := RecordsText(rest);
      var text := head + tail;
      assert RecordsText(objs) == text;
      assert |head| == 4 + n && head[2] == FormatTwoDigits(n)[0];
      assert s[2] == text[2];
      assert after[..|tail|] == tail by {
        assert s[..|text|][4 + n..] == tail;
        assert s[..|text|][4 + n..] == after[..|tail|];
      }
      PrefixDigitLengths(after);
    }
  }

  /** The tokenizer invariant: the records read, written back in order, are the start
      of the input exactly when every length text the reader met was two digits. */
  lemma TokensPrefix(s: string)
    ensures Tokens(s).Ok? ==>
              var text := RecordsText(Tokens(s).value);
              (|text| <= |s| && s[..|text|] == text <==> DigitLengths(s))
  {
    TokensLaidOut(s);
    if Tokens(s).Ok? {
      var text := RecordsText(Tokens(s).value);
      if DigitLengths(s) {
        LaidOutPrefix(Tokens(s).value, s);
      }
      if |text| <= |s| && s[..|text|] == text {
        PrefixDigitLengths(s);
      }
    }
  }

  /** Text written by `addField`, in front of text whose lengths are digits, has its
      lengths in digits too: the `%02d` lengths never carry a sign. */
  lemma {:induction false} SerializeDigitLengths(fields: seq<(string, string)>, tail: string)
    requires Encodable(fields) && DigitLengths(tail)
    ensures DigitLengths(Serialize(fields) + tail)
  {
    if fields == [] {
      assert Serialize(fields) + tail == tail;
    } else {
      var rest := Serialize(fields[1..]) + tail;
      assert Serialize(fields) + tail == FieldText(fields[0].0, fields[0].1) + rest;
      RecordsOfCons(fields);
      SerializeDigitLengths(fields[1..], tail);
      FieldDigitLengths(fields[0].0, fields[0].1, rest);
    }
  }

  /** One field written by `addField` in front of text whose lengths are digits. */
  lemma FieldDigitLengths(id: string, value: string, rest: string)
    requires |id| == 2 && 1 <= |value| <= 99 && DigitLengths(rest)
    ensures DigitLengths(FieldText(id, value) + rest)
  {
    FieldLayout(id, value, rest);
    DigitLengthsStep(FieldText(id, value) + rest, |value|);
  }

  /** A complete record with a two-digit length, in front of text whose lengths are
      digits. */
  lemma DigitLengthsStep(s: string, n: int)
    requires 0 <= n && 4 + n <= |s| && ToInt2(s[2..4]) == Some(n) && IsDigit(s[2])
    requires DigitLengths(s[4 + n..])
    ensures DigitLengths(s)
  {
  }

  /** `parseTlvObjects`: the cursor loop of the source, one record per iteration. */
  method ParseTlvObjects(data: string) returns (r: Result<Records, Failure>)
    ensures r == Tokens(data)
  {
    var objs: Records := [];
    var index := 0;
    ReadingStarts(data);
    while index < |data|
      invariant 0 <= index <= |data|
      invariant Tokens(data) == Prepend(objs, Tokens(data[index..]))
      decreases |data| - index
    {
      var start := index;
      if index + 2 > |data| {
        ReadingStops(data, start, objs);
        break;
      }
      var id := data[index..index + 2];
      index := index + 2;
      if index + 2 > |data| {
        ReadingStops(data, start, objs);
        break;
      }
      var lengthText := data[index..index + 2];
      var parsed := ToInt2(lengthText);
      if parsed.None? {
        ReadingFails(data, start, objs);
        return Err(NumberFormat(lengthText));
      }
      var length := parsed.value;
      index := index + 2;
      if index + length > |data| {
        ReadingOverruns(data, start, objs);
        break;
      }
      if length < 0 {
        ReadingFails(data, start, objs);
        return Err(IndexOutOfBounds);
      }
      var value := data[index..index + length];
      index := index + length;
      ReadingAdvances(data, start, objs, length);
      objs := objs + [TlvObject(id, length, value, [])];
    }
    if index >= |data| {
      ReadingEnds(data, index, objs);
    }
    return Ok(objs);
  }

  /** Before the loop: nothing read yet. */
  lemma ReadingStarts(data: string)
    ensures Tokens(data) == Prepend([], Tokens(data[0..]))
  {
    assert data[0..] == data;
    match Tokens(data) {
      case Ok(t) => assert [] + t == t;
      case Err(_) =>
    }
  }

  /** Fewer than four characters left: reading ends with the records so far. */
  lemma ReadingStops(data: string, index: nat, objs: Records)
    requires index <= |data| && index + 4 > |data|
    requires Tokens(data) == Prepend(objs, Tokens(data[index..]))
    ensures Tokens(data) == Ok(objs)
  {
    assert objs + [] == objs;
  }

  /** The cursor at the end: reading ends with the records so far. */
  lemma ReadingEnds(data: string, index: nat, objs: Records)
    requires index == |data|
    requires Tokens(data) == Prepend(objs, Tokens(data[index..]))
    ensures Tokens(data) == Ok(objs)
  {
    assert objs + [] == objs;
  }

  /** A declared length that runs past the end: reading ends with the records so far. */
  lemma ReadingOverruns(data: string, index: nat, objs: Records)
    requires index + 4 <= |data| && ToInt2(data[index + 2..index + 4]).Some?
    requires index + 4 + ToInt2(data[index + 2..index + 4]).value > |data|
    requires Tokens(data) == Prepend(objs, Tokens(data[index..]))
    ensures Tokens(data) == Ok(objs)
  {
    var rest := data[index..];
    assert rest[2..4] == data[index + 2..index + 4];
    assert objs + [] == objs;
  }

  /** A length that is not a number, or is negative: reading throws. */
  lemma ReadingFails(data: string, index: nat, objs: Records)
    requires index + 4 <= |data|
    requires Tokens(data) == Prepend(objs, Tokens(data[index..]))
    ensures ToInt2(data[index + 2..index + 4]).None? ==> Tokens(data) == Err(NumberFormat(data[index + 2..index + 4]))
    ensures ToInt2(data[index + 2..index + 4]).Some? && ToInt2(data[index + 2..index + 4]).value < 0
            ==> Tokens(data) == Err(IndexOutOfBounds)
  {
    var rest := data[index..];
    assert rest[2..4] == data[index + 2..index + 4];
  }

  /** A complete record at the cursor: it joins the records read so far. */
  lemma ReadingAdvances(data: string, index: nat, objs: Records, n: int)
    requires index + 4 <= |data| && ToInt2(data[index + 2..index + 4]) == Some(n)
    requires 0 <= n && index + 4 + n <= |data|
    requires Tokens(data) == Prepend(objs, Tokens(data[index..]))
    ensures Tokens(data) == Prepend(objs + [TlvObject(data[index..index + 2], n, data[index + 4..index + 4 + n], [])],
                                    Tokens(data[index + 4 + n..]))
  {
    var rest := data[index..];
    var o := TlvObject(data[index..index + 2], n, data[index + 4..index + 4 + n], []);
    var after := data[index + 4 + n..];
    assert Tokens(rest) == Prepend([o], Tokens(after)) by {
      assert rest[2..4] == data[index + 2..index + 4];
      assert rest[..2] == data[index..index + 2] && rest[4..4 + n] == data[index + 4..index + 4 + n];
      assert rest[4 + n..] == after;
      TokensStep(rest, n);
    }
    PrependChain(Tokens(data), Tokens(rest), Tokens(after), objs, [o]);
  }

  /** One step of the reader: a complete record at the front of s. */
  lemma TokensStep(s: string, n: int)
    requires |s| >= 4 && ToInt2(s[2..4]) == Some(n) && 0 <= n && 4 + n <= |s|
    ensures Tokens(s) == Prepend([TlvObject(s[..2], n, s[4..4 + n], [])], Tokens(s[4 + n..]))
  {
  }

  /** Records found before records found before the rest. */
  lemma PrependChain(whole: Result<Records, Failure>, middle: Result<Records, Failure>,
                     last: Result<Records, Failure>, first: Records, second: Records)
    requires whole == Prepend(first, middle) && middle == Prepend(second, last)
    ensures whole == Prepend(first + second, last)
  {
    PrependPrepend(first, second, last);
  }

  lemma PrependPrepend(a: Records, b: Records, r: Result<Records, Failure>)
    ensures Prepend(a, Prepend(b, r)) == Prepend(a + b, r)
  {
    match r
    case Ok(t) => assert a + (b + t) == (a + b) + t;
    case Err(_) =>
  }

  // ------------------------------------------------------------ writing

  /** The text `addField(builder, id, value)` appends: nothing for an empty value,
      otherwise the id, the length as `%02d` and the value. */
  function FieldText(id: string, value: string): string {
    if value == "" then "" else id + FormatTwoDigits(|value|) + value
  }

  /** The fields written one after another. */
  function Serialize(fields: seq<(string, string)>): string {
    if fields == [] then "" else FieldText(fields[0].0, fields[0].1) + Serialize(fields[1..])
  }

  /** Fields `addField` writes so that `parseTlvObjects` reads them back: two-character
      ids and values of 1 to 99 characters. */
  predicate Encodable(fields: seq<(string, string)>) {
    forall i | 0 <= i < |fields| :: |fields[i].0| == 2 && 1 <= |fields[i].1| <= 99
  }

  /** The records the fields should read back as. */
  function RecordsOf(fields: seq<(string, string)>): (objs: Records)
    ensures |objs| == |fields|
    ensures forall i | 0 <= i < |fields| ::
              objs[i] == TlvObject(fields[i].0, |fields[i].1|, fields[i].1, [])
  {
    if fields == [] then [] else [TlvObject(fields[0].0, |fields[0].1|, fields[0].1, [])] + RecordsOf(fields[1..])
  }

  /** The (id, value) pairs of records. */
  function FieldsOf(objs: Records): (fields: seq<(string, string)>)
    ensures |fields| == |objs| && forall i | 0 <= i < |objs| :: fields[i] == (objs[i].id, objs[i].value)
  {
    if objs == [] then [] else [(objs[0].id, objs[0].value)] + FieldsOf(objs[1..])
  }

  lemma {:induction false} SerializeAppend(fields: seq<(string, string)>, f: (string, string))
    ensures Serialize(fields + [f]) == Serialize(fields) + FieldText(f.0, f.1)
  {
    if fields != [] {
      assert (fields + [f])[1..] == fields[1..] + [f];
      SerializeAppend(fields[1..], f);
    } else {
      assert Serialize([f]) == FieldText(f.0, f.1) + Serialize([]);
    }
  }

  /** Two lists of fields written one after the other. */
  lemma {:induction false} SerializeConcat(first: seq<(string, string)>, second: seq<(string, string)>)
    ensures Serialize(first + second) == Serialize(first) + Serialize(second)
  {
    if first == [] {
      assert first + second == second;
    } else {
      assert (first + second)[1..] == first[1..] + second;
      SerializeConcat(first[1..], second);
    }
  }

  /** Writing one more field of a list. */
  lemma SerializeStep(fields: seq<(string, string)>, k: nat)
    requires k < |fields|
    ensures Serialize(fields[..k + 1]) == Serialize(fields[..k]) + FieldText(fields[k].0, fields[k].1)
  {
    assert fields[..k + 1] == fields[..k] + [fields[k]];
    SerializeAppend(fields[..k], fields[k]);
  }

  /** One written field followed by anything: id, length digits, value, the rest. */
  lemma FieldLayout(id: string, value: string, rest: string)
    requires |id| == 2 && 1 <= |value| <= 99
    ensures var s := FieldText(id, value) + rest;
            var n := |value|;
            |s| >= 4 + n && ToInt2(s[2..4]) == Some(n) && s[..2] == id && IsDigit(s[2])
            && s[4..4 + n] == value && s[4 + n..] == rest
  {
    var digits := FormatTwoDigits(|value|);
    ToIntFormatTwoDigits(|value|);
    var s := FieldText(id, value) + rest;
    assert s == id + digits + value + rest;
    assert s[2] == digits[0];
  }

  /** Reading what was written: each encodable field comes back as one record, and
      reading then carries on with whatever follows. */
  lemma {:induction false} TokensSerialize(fields: seq<(string, string)>, tail: string)
    requires Encodable(fields)
    ensures Tokens(Serialize(fields) + tail) == Prepend(RecordsOf(fields), Tokens(tail))
  {
    if fields == [] {
      assert Serialize(fields) + tail == tail;
      match Tokens(tail)
      case Ok(t) => assert [] + t == t;
      case Err(_) =>
    } else {
      var o := TlvObject(fields[0].0, |fields[0].1|, fields[0].1, []);
      var rest := Serialize(fields[1..]) + tail;
      FirstRecord(fields, tail);
      RecordsOfCons(fields);
      TokensSerialize(fields[1..], tail);
      PrependChain(Tokens(Serialize(fields) + tail), Tokens(rest), Tokens(tail), [o], RecordsOf(fields[1..]));
    }
  }

  /** Reading the written fields takes the first one back as a record. */
  lemma FirstRecord(fields: seq<(string, string)>, tail: string)
    requires fields != [] && Encodable(fields)
    ensures Tokens(Serialize(fields) + tail)
            == Prepend([TlvObject(fields[0].0, |fields[0].1|, fields[0].1, [])], Tokens(Serialize(fields[1..]) + tail))
  {
    var rest := Serialize(fields[1..]) + tail;
    assert Serialize(fields) + tail == FieldText(fields[0].0, fields[0].1) + rest;
    FieldRead(fields[0].0, fields[0].1, rest);
  }

  /** One written field in front of any text is read back as its record. */
  lemma FieldRead(id: string, value: string, rest: string)
    requires |id| == 2 && 1 <= |value| <= 99
    ensures Tokens(FieldText(id, value) + rest) == Prepend([TlvObject(id, |value|, value, [])], Tokens(rest))
  {
    var s := FieldText(id, value) + rest;
    var n := |value|;
    FieldLayout(id, value, rest);
    TokensStep(s, n);
    assert TlvObject(s[..2], n, s[4..4 + n], []) == TlvObject(id, n, value, []);
  }

  lemma RecordsOfCons(fields: seq<(string, string)>)
    requires fields != [] && Encodable(fields)
    ensures Encodable(fields[1..])
    ensures RecordsOf(fields) == [TlvObject(fields[0].0, |fields[0].1|, fields[0].1, [])] + RecordsOf(fields[1..])
  {
    assert forall i | 0 <= i < |fields| - 1 :: fields[1..][i] == fields[i + 1];
  }


  /** The checksum field header "6304" alone stops the reader: its declared length
      runs past the end, so it yields no record and no error. */
  lemma ChecksumHeaderStops()
    ensures Tokens("6304") == Ok([])
  {
    assert "6304"[2..4] == "04";
  }

  /** A value cut short stops the reader with the records read so far: "0003AB"
      declares three characters of value but has only two, and yields no record. */
  lemma TruncatedValueStops()
    ensures Tokens("0003AB") == Ok([])
  {
    assert "0003AB"[2..4] == "03";
  }

  /** Writing fields gives nothing at all exactly when every value is empty. */
  lemma {:induction false} SerializeEmpty(fields: seq<(string, string)>)
    ensures Serialize(fields) == "" <==> forall i | 0 <= i < |fields| :: fields[i].1 == ""
  {
    if fields != [] {
      SerializeEmpty(fields[1..]);
      assert forall i | 1 <= i < |fields| :: fields[1..][i - 1] == fields[i];
    }
  }

  /** Records read from any input, if none is empty, are written back by `addField`
      to text that reads as exactly the same records. */
  lemma ReadWriteRead(s: string)
    requires Tokens(s).Ok?
    requires forall i | 0 <= i < |Tokens(s).value| :: Tokens(s).value[i].length >= 1
    ensures Tokens(Serialize(FieldsOf(Tokens(s).value))) == Tokens(s)
  {
    var objs := Tokens(s).value;
    var fields := FieldsOf(objs);
    TokensWellFormed(s);
    assert RecordsOf(fields) == objs by {
      assert forall i | 0 <= i < |objs| :: Canonical(objs[i]);
    }
    assert Encodable(fields) by {
      assert forall i | 0 <= i < |objs| :: Canonical(objs[i]);
    }
    assert Tokens(Serialize(fields) + "") == Prepend(objs, Tokens("")) by {
      TokensSerialize(fields, "");
    }
    assert Serialize(fields) + "" == Serialize(fields);
    assert objs + [] == objs;
  }
}
