/** The text `generate` builds for a list of fields, accumulated the way its builder
    does: one `addField` call after another, each appending to the right. */
module FieldChains {
  import opened TlvCodec

  /** The text after `start` once the first k fields are written, left to right. */
  ghost function Written(start: string, fields: seq<(string, string)>, k: nat): string
    requires k <= |fields|
  {
    if k == 0 then start else Written(start, fields, k - 1) + FieldText(fields[k - 1].0, fields[k - 1].1)
  }

  /** Appending field after field gives the text of the list of those fields. */
  lemma {:induction false} WrittenIsSerialize(start: string, fields: seq<(string, string)>, k: nat)
    requires k <= |fields|
    ensures Written(start, fields, k) == start + Serialize(fields[..k])
  {
    if k == 0 {
      assert fields[..0] == [];
      assert start + "" == start;
    } else {
      var previous := Serialize(fields[..k - 1]);
      var last := FieldText(fields[k - 1].0, fields[k - 1].1);
      WrittenIsSerialize(start, fields, k - 1);
      SerializeStep(fields, k - 1);
      assert (start + previous) + last == start + (previous + last);
    }
  }

  /** All the fields, field after field. */
  lemma WrittenAll(start: string, fields: seq<(string, string)>)
    ensures Written(start, fields, |fields|) == start + Serialize(fields)
  {
    WrittenIsSerialize(start, fields, |fields|);
    assert fields[..|fields|] == fields;
  }

  /** Five fields' text after `start`, field after field. */
  lemma SerializeFive(start: string, f: seq<(string, string)>)
    requires |f| == 5
    ensures start + Serialize(f) == start + FieldText(f[0].0, f[0].1) + FieldText(f[1].0, f[1].1)
              + FieldText(f[2].0, f[2].1) + FieldText(f[3].0, f[3].1) + FieldText(f[4].0, f[4].1)
  {
    WrittenAll(start, f);
    assert Written(start, f, 1) == start + FieldText(f[0].0, f[0].1);
    assert Written(start, f, 2) == Written(start, f, 1) + FieldText(f[1].0, f[1].1);
    assert Written(start, f, 3) == Written(start, f, 2) + FieldText(f[2].0, f[2].1);
    assert Written(start, f, 4) == Written(start, f, 3) + FieldText(f[3].0, f[3].1);
    assert Written(start, f, 5) == Written(start, f, 4) + FieldText(f[4].0, f[4].1);
  }

  /** Eight fields' text after `start`, field after field. */
  lemma SerializeEight(start: string, f: seq<(string, string)>)
    requires |f| == 8
    ensures start + Serialize(f) == start + FieldText(f[0].0, f[0].1) + FieldText(f[1].0, f[1].1)
              + FieldText(f[2].0, f[2].1) + FieldText(f[3].0, f[3].1) + FieldText(f[4].0, f[4].1)
              + FieldText(f[5].0, f[5].1) + FieldText(f[6].0, f[6].1) + FieldText(f[7].0, f[7].1)
  {
    WrittenAll(start, f);
    assert Written(start, f, 1) == start + FieldText(f[0].0, f[0].1);
    assert Written(start, f, 2) == Written(start, f, 1) + FieldText(f[1].0, f[1].1);
    assert Written(start, f, 3) == Written(start, f, 2) + FieldText(f[2].0, f[2].1);
    assert Written(start, f, 4) == Written(start, f, 3) + FieldText(f[3].0, f[3].1);
    assert Written(start, f, 5) == Written(start, f, 4) + FieldText(f[4].0, f[4].1);
    assert Written(start, f, 6) == Written(start, f, 5) + FieldText(f[5].0, f[5].1);
    assert Written(start, f, 7) == Written(start, f, 6) + FieldText(f[6].0, f[6].1);
    assert Written(start, f, 8) == Written(start, f, 7) + FieldText(f[7].0, f[7].1);
  }

  /** Ten fields' text after `start`, field after field. */
  lemma SerializeTen(start: string, f: seq<(string, string)>)
    requires |f| == 10
    ensures start + Serialize(f) == start + FieldText(f[0].0, f[0].1) + FieldText(f[1].0, f[1].1)
              + FieldText(f[2].0, f[2].1) + FieldText(f[3].0, f[3].1) + FieldText(f[4].0, f[4].1)
              + FieldText(f[5].0, f[5].1) + FieldText(f[6].0, f[6].1) + FieldText(f[7].0, f[7].1)
              + FieldText(f[8].0, f[8].1) + FieldText(f[9].0, f[9].1)
  {
    WrittenAll(start, f);
    assert Written(start, f, 1) == start + FieldText(f[0].0, f[0].1);
    assert Written(start, f, 2) == Written(start, f, 1) + FieldText(f[1].0, f[1].1);
    assert Written(start, f, 3) == Written(start, f, 2) + FieldText(f[2].0, f[2].1);
    assert Written(start, f, 4) == Written(start, f, 3) + FieldText(f[3].0, f[3].1);
    assert Written(start, f, 5) == Written(start, f, 4) + FieldText(f[4].0, f[4].1);
    assert Written(start, f, 6) == Written(start, f, 5) + FieldText(f[5].0, f[5].1);
    assert Written(start, f, 7) == Written(start, f, 6) + FieldText(f[6].0, f[6].1);
    assert Written(start, f, 8) == Written(start, f, 7) + FieldText(f[7].0, f[7].1);
    assert Written(start, f, 9) == Written(start, f, 8) + FieldText(f[8].0, f[8].1);
    assert Written(start, f, 10) == Written(start, f, 9) + FieldText(f[9].0, f[9].1);
  }
}
