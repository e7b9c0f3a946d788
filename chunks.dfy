/** The contract flattener: one text chunk per company of the parsed
    contract file, each field rendered on its own line(s). Mappings are
    sequences of pairs, so the order of the pairs is the file's key order. */
module ContractChunks {
  import opened Text

  /** A field value as it comes out of the parsed file, with every leaf
      already turned into its text form. */
  datatype Value =
    | Scalar(text: string)
    | List(items: seq<string>)
    | Dict(entries: seq<(string, string)>)

  type Field = (string, Value)

  /** One company: its name and its fields in file order. */
  type Record = (string, seq<Field>)

  /** The first line of every chunk. */
  function Header(name: string): string
  {
    "Empresa: " + name + "\n"
  }

  /** The line of one entry of a one-level mapping, indented by two spaces. */
  function EntryLine(e: (string, string)): string
  {
    "  " + e.0 + ": " + e.1 + "\n"
  }

  /** The lines of a one-level mapping, in order. */
  function RenderEntries(entries: seq<(string, string)>): string
  {
    if entries == [] then "" else EntryLine(entries[0]) + RenderEntries(entries[1..])
  }

  /** The text one field adds to its chunk, by the kind of its value. */
  function RenderField(field: string, v: Value): string
  {
    match v
    case List(items) => field + ": \n- " + Join("\n- ", items) + "\n"
    case Dict(entries) => field + ": \n" + RenderEntries(entries)
    case Scalar(text) => field + ": " + text + "\n"
  }

  function RenderFields(fields: seq<Field>): string
  {
    if fields == [] then ""
    else RenderField(fields[0].0, fields[0].1) + RenderFields(fields[1..])
  }

  /** The chunk of one company: its header, then its fields in order. */
  function Chunk(r: Record): string
  {
    Header(r.0) + RenderFields(r.1)
  }

  /** The chunks of all companies, in order. */
  function Chunks(data: seq<Record>): seq<string>
  {
    if data == [] then [] else [Chunk(data[0])] + Chunks(data[1..])
  }

  // ---------------------------------------------------------------------
  // Lemmas about the rendering rules

  lemma {:induction false} RenderEntriesSnoc(entries: seq<(string, string)>, e: (string, string))
    ensures RenderEntries(entries + [e]) == RenderEntries(entries) + EntryLine(e)
  {
    if entries != [] {
      assert (entries + [e])[1..] == entries[1..] + [e];
      RenderEntriesSnoc(entries[1..], e);
    } else {
      assert [e][1..] == [];
    }
  }

  /** Taking one more entry adds exactly that entry's line. */
  lemma RenderEntriesPrefix(entries: seq<(string, string)>, k: nat)
    requires k < |entries|
    ensures RenderEntries(entries[..k + 1]) == RenderEntries(entries[..k]) + EntryLine(entries[k])
  {
    assert entries[..k + 1] == entries[..k] + [entries[k]];
    RenderEntriesSnoc(entries[..k], entries[k]);
  }

  lemma {:induction false} RenderFieldsConcat(a: seq<Field>, b: seq<Field>)
    ensures RenderFields(a + b) == RenderFields(a) + RenderFields(b)
  {
    if a == [] {
      assert a + b == b;
    } else {
      assert (a + b)[1..] == a[1..] + b;
      RenderFieldsConcat(a[1..], b);
    }
  }

  /** Taking one more field adds exactly that field's rendering. */
  lemma RenderFieldsPrefix(fields: seq<Field>, j: nat)
    requires j < |fields|
    ensures RenderFields(fields[..j + 1]) == RenderFields(fields[..j]) + RenderField(fields[j].0, fields[j].1)
  {
    assert fields[..j + 1] == fields[..j] + [fields[j]];
    RenderFieldsConcat(fields[..j], [fields[j]]);
    assert RenderFields([fields[j]]) == RenderField(fields[j].0, fields[j].1) + RenderFields([]);
  }

  lemma {:induction false} ChunksSnoc(data: seq<Record>, r: Record)
    ensures Chunks(data + [r]) == Chunks(data) + [Chunk(r)]
  {
    if data == [] {
      assert [r][1..] == [];
    } else {
      assert (data + [r])[1..] == data[1..] + [r];
      ChunksSnoc(data[1..], r);
    }
  }

  /** Exactly one chunk per company, in the file's order. */
  lemma {:induction false} ChunksOnePerRecord(data: seq<Record>)
    ensures |Chunks(data)| == |data|
    ensures forall i :: 0 <= i < |data| ==> Chunks(data)[i] == Chunk(data[i])
  {
    if data != [] {
      var rest := Chunks(data[1..]);
      ChunksOnePerRecord(data[1..]);
      assert Chunks(data) == [Chunk(data[0])] + rest;
      forall i | 0 <= i < |data|
        ensures Chunks(data)[i] == Chunk(data[i])
      {
        if i > 0 {
          assert data[1..][i - 1] == data[i];
        }
      }
    }
  }

  /** The fields before `j`, field `j`, and the fields after it render in
      that order. */
  lemma RenderFieldsAt(fs: seq<Field>, j: nat)
    requires j < |fs|
    ensures RenderFields(fs) == RenderFields(fs[..j]) + RenderField(fs[j].0, fs[j].1) + RenderFields(fs[j + 1..])
  {
    assert fs == fs[..j] + fs[j..];
    RenderFieldsConcat(fs[..j], fs[j..]);
    assert fs[j..][1..] == fs[j + 1..];
  }

  /** A chunk is its header, the renderings of the fields before field `j`,
      field `j`'s own rendering, then the renderings of the fields after it. */
  lemma ChunkFieldAt(r: Record, j: nat)
    requires j < |r.1|
    ensures Chunk(r) == Header(r.0) + RenderFields(r.1[..j])
                        + RenderField(r.1[j].0, r.1[j].1) + RenderFields(r.1[j + 1..])
  {
    RenderFieldsAt(r.1, j);
  }

  /** A bulleted list: one `- item` line per item when the list is not
      empty, and a single bare `- ` line when it is. */
  function Bullets(items: seq<string>): string
  {
    if items == [] then "" else "- " + items[0] + "\n" + Bullets(items[1..])
  }

  lemma {:induction false} JoinAsBullets(items: seq<string>)
    requires items != []
    ensures "- " + Join("\n- ", items) + "\n" == Bullets(items)
  {
    if |items| == 1 {
      assert items[1..] == [];
    } else {
      JoinAsBullets(items[1..]);
      calc {
        "- " + Join("\n- ", items) + "\n";
        "- " + (items[0] + "\n- " + Join("\n- ", items[1..])) + "\n";
        ("- " + items[0] + "\n") + ("- " + Join("\n- ", items[1..]) + "\n");
      }
    }
  }

  lemma ListRendering(field: string, items: seq<string>)
    ensures items == [] ==> RenderField(field, List(items)) == field + ": \n- \n"
    ensures items != [] ==> RenderField(field, List(items)) == field + ": \n" + Bullets(items)
  {
    if items != [] {
      JoinAsBullets(items);
      assert RenderField(field, List(items)) == field + ": \n" + ("- " + Join("\n- ", items) + "\n");
    }
  }

  lemma {:induction false} BulletsHaveItem(items: seq<string>, i: nat)
    requires i < |items|
    ensures Occurs("- " + items[i] + "\n", Bullets(items))
  {
    var first := "- " + items[0] + "\n";
    assert Bullets(items) == first + Bullets(items[1..]);
    if i == 0 {
      OccursPrefix(first, Bullets(items));
    } else {
      BulletsHaveItem(items[1..], i - 1);
      OccursAfter("- " + items[i] + "\n", Bullets(items[1..]), first);
    }
  }

  lemma {:induction false} EntriesHaveLine(entries: seq<(string, string)>, i: nat)
    requires i < |entries|
    ensures Occurs(EntryLine(entries[i]), RenderEntries(entries))
  {
    assert RenderEntries(entries) == EntryLine(entries[0]) + RenderEntries(entries[1..]);
    if i == 0 {
      OccursPrefix(EntryLine(entries[0]), RenderEntries(entries));
    } else {
      EntriesHaveLine(entries[1..], i - 1);
      OccursAfter(EntryLine(entries[i]), RenderEntries(entries[1..]), EntryLine(entries[0]));
    }
  }

  /** Field `j`'s rendering occurs in the chunk of its company. */
  lemma FieldRenderingInChunk(r: Record, j: nat)
    requires j < |r.1|
    ensures Occurs(RenderField(r.1[j].0, r.1[j].1), Chunk(r))
  {
    ChunkFieldAt(r, j);
    OccursBetween(Header(r.0) + RenderFields(r.1[..j]), RenderField(r.1[j].0, r.1[j].1),
                  RenderFields(r.1[j + 1..]));
  }

  /** Every field name of a company appears in its chunk, followed by `: `. */
  lemma FieldNameInChunk(r: Record, j: nat)
    requires j < |r.1|
    ensures Occurs(r.1[j].0 + ": ", Chunk(r))
  {
    var field, v := r.1[j].0, r.1[j].1;
    RenderFieldStartsWithName(field, v);
    OccursPrefix(field + ": ", RenderField(field, v));
    FieldRenderingInChunk(r, j);
    OccursInOccurs(field + ": ", RenderField(field, v), Chunk(r));
  }

  /** Every kind of field rendering opens with the field name and `: `. */
  lemma RenderFieldStartsWithName(field: string, v: Value)
    ensures field + ": " <= RenderField(field, v)
  {
    match v
    case List(items) =>
      assert RenderField(field, v) == (field + ": ") + ("\n- " + Join("\n- ", items) + "\n");
    case Dict(entries) =>
      assert RenderField(field, v) == (field + ": ") + ("\n" + RenderEntries(entries));
    case Scalar(text) =>
      assert RenderField(field, v) == (field + ": ") + (text + "\n");
  }

  /** Every element of a list field appears in the chunk as its own bullet line. */
  lemma ListItemInChunk(r: Record, j: nat, i: nat)
    requires j < |r.1| && r.1[j].1.List?
    requires i < |r.1[j].1.items|
    ensures Occurs("- " + r.1[j].1.items[i] + "\n", Chunk(r))
  {
    var field, items := r.1[j].0, r.1[j].1.items;
    var bullet := "- " + items[i] + "\n";
    ListRendering(field, items);
    BulletsHaveItem(items, i);
    OccursAfter(bullet, Bullets(items), field + ": \n");
    FieldRenderingInChunk(r, j);
    OccursInOccurs(bullet, RenderField(field, List(items)), Chunk(r));
  }

  /** Every sub-entry of a mapping field appears in the chunk as an indented
      `sub_key: sub_value` line; sub-values are not expanded further. */
  lemma DictEntryInChunk(r: Record, j: nat, i: nat)
    requires j < |r.1| && r.1[j].1.Dict?
    requires i < |r.1[j].1.entries|
    ensures Occurs("  " + r.1[j].1.entries[i].0 + ": " + r.1[j].1.entries[i].1 + "\n", Chunk(r))
  {
    var field, entries := r.1[j].0, r.1[j].1.entries;
    EntriesHaveLine(entries, i);
    OccursAfter(EntryLine(entries[i]), RenderEntries(entries), field + ": \n");
    FieldRenderingInChunk(r, j);
    OccursInOccurs(EntryLine(entries[i]), RenderField(field, Dict(entries)), Chunk(r));
  }

  /** Occurrence is transitive. */
  lemma OccursInOccurs(s: string, t: string, u: string)
    requires Occurs(s, t) && Occurs(t, u)
    ensures Occurs(s, u)
  {
    var k :| 0 <= k <= |t| && s <= t[k..];
    var m :| 0 <= m <= |u| && t <= u[m..];
    assert u[m + k..] == u[m..][k..];
    assert s <= u[m + k..];
  }

  /** The worked example of the file format: a company with one scalar
      field and one list field. */
  function LojaA(): Record
  {
    ("Loja A", [("cnpj", Scalar("1.234")), ("escopos", List(["roupas", "sapatos"]))])
  }

  /** It yields a single chunk, which opens with the company's header line. */
  lemma ExampleLojaA()
    ensures Chunks([LojaA()]) == [Chunk(LojaA())]
    ensures Header("Loja A") <= Chunk(LojaA())
  {
    ChunksOnePerRecord([LojaA()]);
  }

  /** The scalar field appears as its own `field: value` line. */
  lemma ExampleLojaAScalar()
    ensures Occurs("cnpj" + ": " + "1.234" + "\n", Chunk(LojaA()))
  {
    FieldRenderingInChunk(LojaA(), 0);
  }

  /** Both elements of the list field appear as bullet lines. */
  lemma ExampleLojaAList()
    ensures Occurs("- " + "roupas" + "\n", Chunk(LojaA()))
    ensures Occurs("- " + "sapatos" + "\n", Chunk(LojaA()))
  {
    ListItemInChunk(LojaA(), 1, 0);
    ListItemInChunk(LojaA(), 1, 1);
  }

  // ---------------------------------------------------------------------
  // The flattener itself, written as the nested loops that build each chunk.
  // The body of the outer loop and the loop over a mapping's entries are
  // split out as methods of their own; together they are the one function
  // of the source.

  /** Builds one chunk per company, in order. */
  method CreateChunksFromJson(data: seq<Record>) returns (chunks: seq<string>)
    ensures chunks == Chunks(data)
    ensures |chunks| == |data|
    ensures forall i :: 0 <= i < |data| ==> chunks[i] == Chunk(data[i])
  {
    chunks := [];
    var i := 0;
    while i < |data|
      invariant 0 <= i <= |data|
      invariant chunks == Chunks(data[..i])
    {
      var chunk := BuildChunk(data[i]);
      ChunksSnoc(data[..i], data[i]);
      assert data[..i + 1] == data[..i] + [data[i]];
      chunks := chunks + [chunk];
      i := i + 1;
    }
    assert data[..i] == data;
    ChunksOnePerRecord(data);
  }

  /** Starts the chunk with the header and extends it field by field. */
  method BuildChunk(r: Record) returns (chunk: string)
    ensures chunk == Chunk(r)
  {
    var name, fields := r.0, r.1;
    chunk := Header(name);
    ghost var done := RenderFields([]);
    assert fields[..0] == [];
    var j := 0;
    while j < |fields|
      invariant 0 <= j <= |fields|
      invariant done == RenderFields(fields[..j])
      invariant chunk == Header(name) + done
    {
      chunk := AppendField(chunk, fields[j].0, fields[j].1);
      ghost var step := RenderField(fields[j].0, fields[j].1);
      assert chunk == Header(name) + (done + step);
      RenderFieldsPrefix(fields, j);
      done := done + step;
      j := j + 1;
    }
    assert fields[..j] == fields;
  }

  /** Extends `chunk` by one field, by the kind of the field's value. */
  method AppendField(chunk: string, field: string, fieldValue: Value) returns (r: string)
    ensures r == chunk + RenderField(field, fieldValue)
  {
    match fieldValue {
      case List(items) =>
        var itemsText := Join("\n- ", items);
        r := chunk + (field + ": \n- " + itemsText + "\n");
      case Dict(entries) =>
        r := chunk + (field + ": \n");
        r := AppendEntries(r, entries);
      case Scalar(text) =>
        r := chunk + (field + ": " + text + "\n");
    }
  }

  /** Extends `chunk` by one indented line per entry of a mapping field. */
  method AppendEntries(chunk: string, entries: seq<(string, string)>) returns (r: string)
    ensures r == chunk + RenderEntries(entries)
  {
    r := chunk;
    var k := 0;
    while k < |entries|
      invariant 0 <= k <= |entries|
      invariant r == chunk + RenderEntries(entries[..k])
    {
      var subKey, subValue := entries[k].0, entries[k].1;
      r := r + ("  " + subKey + ": " + subValue + "\n");
      RenderEntriesPrefix(entries, k);
      k := k + 1;
    }
    assert entries[..k] == entries;
  }
}
