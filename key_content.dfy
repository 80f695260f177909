/** `buildKeyContent`: the one-line description of a leaf schema node. */
module KeyContent {
  import opened Wrappers
  import opened Strings
  import opened Schemas

  /** One labelled part of a descriptor: a label token and the value tokens after it. */
  datatype Field = Field(tag: string, values: seq<string>)

  /** The order in which the labels appear. */
  const Labels: seq<string> := ["Type:", "Items Type:", "Title:", "Desc:", "Default:", "Enum:"]

  /** The format token: `(Format:<f>)` when a format is set, otherwise the
      empty string, which still takes its own slot in the join. */
  function FormatToken(format: string): string {
    if format != "" then "(Format:" + format + ")" else ""
  }

  function Optional(tag: string, value: string): seq<Field> {
    if value != "" then [Field(tag, [value])] else []
  }

  function ItemsPart(p: Schema): seq<Field>
    requires ItemsPresent(p)
  {
    if p.typ == "array"
    then [Field("Items Type:", [p.items.value.typ, FormatToken(p.items.value.format)])]
    else []
  }

  function EnumPart(p: Schema): seq<Field> {
    match p.enum
    case Some(vs) => [Field("Enum:", [Join(vs, ", ")])]
    case None => []
  }

  /** The fields the descriptor of `p` shows, in the order they are pushed. */
  function Fields(p: Schema): seq<Field>
    requires ItemsPresent(p)
  {
    [Field("Type:", [p.typ, FormatToken(p.format)])]
    + ItemsPart(p)
    + Optional("Title:", p.title)
    + Optional("Desc:", p.description)
    + Optional("Default:", p.default)
    + EnumPart(p)
  }

  /** The flat token list of a field list. */
  function Tokens(fs: seq<Field>): seq<string> {
    if fs == [] then [] else [fs[0].tag] + fs[0].values + Tokens(fs[1..])
  }

  /** The descriptor string: all tokens joined by single spaces. It always
      opens with the type label. */
  function Descriptor(p: Schema): (r: string)
    requires ItemsPresent(p)
    ensures "Type: " <= r
  {
    var tokens := Tokens(Fields(p));
    assert tokens[0] == "Type:" && tokens[1] == p.typ;
    assert |tokens| > 1;
    assert Join(tokens, " ") == "Type:" + " " + Join(tokens[1..], " ");
    assert "Type:" + " " == "Type: ";
    Join(tokens, " ")
  }

  /** What the descriptor shows after `tag`, if it shows that label at all:
      the per-field omission rules, independent of the order of the fields. */
  function Shown(p: Schema, tag: string): Option<seq<string>>
    requires ItemsPresent(p)
  {
    if tag == "Type:" then Some([p.typ, FormatToken(p.format)])
    else if tag == "Items Type:" then
      (if p.typ == "array" then Some([p.items.value.typ, FormatToken(p.items.value.format)]) else None)
    else if tag == "Title:" then (if p.title != "" then Some([p.title]) else None)
    else if tag == "Desc:" then (if p.description != "" then Some([p.description]) else None)
    else if tag == "Default:" then (if p.default != "" then Some([p.default]) else None)
    else if tag == "Enum:" then (if p.enum.Some? then Some([Join(p.enum.value, ", ")]) else None)
    else None
  }

  /** The values shown after the first field labelled `tag`. */
  function Lookup(fs: seq<Field>, tag: string): Option<seq<string>> {
    if fs == [] then None
    else if fs[0].tag == tag then Some(fs[0].values)
    else Lookup(fs[1..], tag)
  }

  /** The position of a label in `Labels`. */
  function Rank(tag: string): nat {
    if tag == "Type:" then 0
    else if tag == "Items Type:" then 1
    else if tag == "Title:" then 2
    else if tag == "Desc:" then 3
    else if tag == "Default:" then 4
    else if tag == "Enum:" then 5
    else 6
  }

  /** Every label is a known one and the labels appear in the order of `Labels`. */
  predicate InLabelOrder(fs: seq<Field>) {
    && (forall i :: 0 <= i < |fs| ==> fs[i].tag in Labels)
    && (forall i, j :: 0 <= i < j < |fs| ==> Rank(fs[i].tag) < Rank(fs[j].tag))
  }

  lemma {:induction false} TokensConcat(a: seq<Field>, b: seq<Field>)
    ensures Tokens(a + b) == Tokens(a) + Tokens(b)
    decreases |a|
  {
    if a == [] {
      assert a + b == b;
    } else {
      assert (a + b)[0] == a[0];
      assert (a + b)[1..] == a[1..] + b;
      TokensConcat(a[1..], b);
    }
  }

  lemma {:induction false} LookupConcat(a: seq<Field>, b: seq<Field>, tag: string)
    ensures Lookup(a + b, tag) == if Lookup(a, tag).Some? then Lookup(a, tag) else Lookup(b, tag)
    decreases |a|
  {
    if a == [] {
      assert a + b == b;
    } else {
      assert (a + b)[0] == a[0];
      assert (a + b)[1..] == a[1..] + b;
      LookupConcat(a[1..], b, tag);
    }
  }

  /** A label ranked before every label of an ordered list is not in it. */
  lemma {:induction false} LookupBelow(fs: seq<Field>, tag: string)
    requires InLabelOrder(fs) && fs != []
    requires Rank(tag) < Rank(fs[0].tag)
    ensures Lookup(fs, tag) == None
    decreases |fs|
  {
    if |fs| > 1 {
      assert Rank(fs[0].tag) < Rank(fs[1].tag);
      LookupBelow(fs[1..], tag);
    }
  }

  /** Every rank of `fs` lies in `[lo, hi)`. */
  predicate RanksWithin(fs: seq<Field>, lo: nat, hi: nat) {
    forall i :: 0 <= i < |fs| ==> fs[i].tag in Labels && lo <= Rank(fs[i].tag) < hi
  }

  lemma OrderConcat(a: seq<Field>, b: seq<Field>, lo: nat, mid: nat, hi: nat)
    requires lo <= mid <= hi
    requires InLabelOrder(a) && RanksWithin(a, lo, mid)
    requires InLabelOrder(b) && RanksWithin(b, mid, hi)
    ensures InLabelOrder(a + b) && RanksWithin(a + b, lo, hi)
  {
    forall i | 0 <= i < |a + b| ensures (a + b)[i].tag in Labels && lo <= Rank((a + b)[i].tag) < hi {
      if i >= |a| {
        assert (a + b)[i] == b[i - |a|];
      }
    }
    forall i, j | 0 <= i < j < |a + b| ensures Rank((a + b)[i].tag) < Rank((a + b)[j].tag) {
      if j < |a| {
      } else if i >= |a| {
        assert (a + b)[i] == b[i - |a|] && (a + b)[j] == b[j - |a|];
      } else {
        assert (a + b)[j] == b[j - |a|];
      }
    }
  }

  lemma {:induction false} LookupOutside(fs: seq<Field>, tag: string, lo: nat, hi: nat)
    requires RanksWithin(fs, lo, hi)
    requires !(lo <= Rank(tag) < hi)
    ensures Lookup(fs, tag) == None
    decreases |fs|
  {
    if fs != [] {
      LookupOutside(fs[1..], tag, lo, hi);
    }
  }

  /** `g` is the group of fields of `p` for label number `k`: empty when the
      label is not shown, otherwise that one field. */
  predicate GroupOf(p: Schema, g: seq<Field>, k: nat)
    requires ItemsPresent(p) && k < 6
  {
    match Shown(p, Labels[k])
    case None => g == []
    case Some(vs) => g == [Field(Labels[k], vs)]
  }

  lemma GroupFacts(p: Schema, g: seq<Field>, k: nat)
    requires ItemsPresent(p) && k < 6 && GroupOf(p, g, k)
    ensures InLabelOrder(g) && RanksWithin(g, k, k + 1)
    ensures Lookup(g, Labels[k]) == Shown(p, Labels[k])
  {
  }

  /** The fields of `p` in label order: one group per label, each empty or a single field. */
  lemma FieldsInGroups(p: Schema) returns (groups: seq<seq<Field>>)
    requires ItemsPresent(p)
    ensures |groups| == 6
    ensures Fields(p) == groups[0] + groups[1] + groups[2] + groups[3] + groups[4] + groups[5]
    ensures forall k :: 0 <= k < 6 ==> InLabelOrder(groups[k]) && RanksWithin(groups[k], k, k + 1)
    ensures forall k :: 0 <= k < 6 ==> Lookup(groups[k], Labels[k]) == Shown(p, Labels[k])
  {
    groups := [
      [Field("Type:", [p.typ, FormatToken(p.format)])],
      ItemsPart(p),
      Optional("Title:", p.title),
      Optional("Desc:", p.description),
      Optional("Default:", p.default),
      EnumPart(p)];
    assert GroupOf(p, groups[0], 0);
    assert GroupOf(p, groups[1], 1);
    assert GroupOf(p, groups[2], 2);
    assert GroupOf(p, groups[3], 3);
    assert GroupOf(p, groups[4], 4);
    assert GroupOf(p, groups[5], 5);
    forall k | 0 <= k < 6
      ensures InLabelOrder(groups[k]) && RanksWithin(groups[k], k, k + 1)
      ensures Lookup(groups[k], Labels[k]) == Shown(p, Labels[k])
    {
      GroupFacts(p, groups[k], k);
    }
  }

  /** The descriptor shows its fields in the fixed label order. */
  lemma FieldsInLabelOrder(p: Schema)
    requires ItemsPresent(p)
    ensures InLabelOrder(Fields(p))
  {
    var g := FieldsInGroups(p);
    OrderConcat(g[0], g[1], 0, 1, 2);
    OrderConcat(g[0] + g[1], g[2], 0, 2, 3);
    OrderConcat(g[0] + g[1] + g[2], g[3], 0, 3, 4);
    OrderConcat(g[0] + g[1] + g[2] + g[3], g[4], 0, 4, 5);
    OrderConcat(g[0] + g[1] + g[2] + g[3] + g[4], g[5], 0, 5, 6);
  }

  /** In six consecutive groups, group `j` holding only label number `j`,
      a label is looked up in its own group, and an unknown one is absent. */
  lemma LookupInGroups(g: seq<seq<Field>>, tag: string)
    requires |g| == 6
    requires forall j :: 0 <= j < 6 ==> RanksWithin(g[j], j, j + 1)
    ensures Lookup(g[0] + g[1] + g[2] + g[3] + g[4] + g[5], tag)
            == if Rank(tag) < 6 then Lookup(g[Rank(tag)], tag) else None
  {
    var a1 := g[0] + g[1];
    var a2 := a1 + g[2];
    var a3 := a2 + g[3];
    var a4 := a3 + g[4];
    LookupConcat(g[0], g[1], tag);
    LookupConcat(a1, g[2], tag);
    LookupConcat(a2, g[3], tag);
    LookupConcat(a3, g[4], tag);
    LookupConcat(a4, g[5], tag);
    forall j | 0 <= j < 6 && j != Rank(tag) ensures Lookup(g[j], tag) == None {
      LookupOutside(g[j], tag, j, j + 1);
    }
  }

  /** The descriptor shows, for each label, exactly what the omission rules say. */
  lemma FieldsByLabel(p: Schema, tag: string)
    requires ItemsPresent(p)
    ensures Lookup(Fields(p), tag) == Shown(p, tag)
  {
    var g := FieldsInGroups(p);
    LookupInGroups(g, tag);
    var k := Rank(tag);
    if k < 6 {
      LabelOfRank(tag);
      assert Lookup(g[k], Labels[k]) == Shown(p, Labels[k]);
    } else {
      assert Shown(p, tag) == None;
    }
  }

  /** A label of rank below six is the label at that position of `Labels`. */
  lemma LabelOfRank(tag: string)
    requires Rank(tag) < 6
    ensures Labels[Rank(tag)] == tag
  {
  }

  /** Two label-ordered field lists that show the same thing for every
      label are the same list. */
  lemma {:induction false} LabelOrderDetermines(fs: seq<Field>, gs: seq<Field>)
    requires InLabelOrder(fs) && InLabelOrder(gs)
    requires forall tag :: Lookup(fs, tag) == Lookup(gs, tag)
    ensures fs == gs
    decreases |fs| + |gs|
  {
    if fs == [] && gs == [] {
    } else if fs == [] {
      assert Lookup(gs, gs[0].tag).Some?;
      assert false;
    } else if gs == [] {
      assert Lookup(fs, fs[0].tag).Some?;
      assert false;
    } else {
      var l, m := fs[0].tag, gs[0].tag;
      if Rank(l) < Rank(m) {
        assert Lookup(fs, l).Some?;
        LookupBelow(gs, l);
        assert false;
      } else if Rank(m) < Rank(l) {
        assert Lookup(gs, m).Some?;
        LookupBelow(fs, m);
        assert false;
      }
      assert l == m by {
        assert l in Labels && m in Labels;
      }
      assert Lookup(fs, l) == Some(fs[0].values) && Lookup(gs, l) == Some(gs[0].values);
      forall tag ensures Lookup(fs[1..], tag) == Lookup(gs[1..], tag) {
        if tag == l {
          if |fs| > 1 {
            assert Rank(fs[0].tag) < Rank(fs[1].tag);
            LookupBelow(fs[1..], tag);
          }
          if |gs| > 1 {
            assert Rank(gs[0].tag) < Rank(gs[1].tag);
            LookupBelow(gs[1..], tag);
          }
        } else {
          assert Lookup(fs, tag) == Lookup(fs[1..], tag);
          assert Lookup(gs, tag) == Lookup(gs[1..], tag);
        }
      }
      LabelOrderDetermines(fs[1..], gs[1..]);
      assert fs == [fs[0]] + fs[1..] && gs == [gs[0]] + gs[1..];
    }
  }

  /** The descriptor is determined by the omission rules and the label
      order alone: any field list in label order that shows what `Shown`
      says, joined by spaces, is the descriptor. */
  lemma DescriptorCharacterised(p: Schema, fs: seq<Field>)
    requires ItemsPresent(p)
    requires InLabelOrder(fs)
    requires forall tag :: Lookup(fs, tag) == Shown(p, tag)
    ensures Join(Tokens(fs), " ") == Descriptor(p)
  {
    FieldsInLabelOrder(p);
    forall tag ensures Lookup(fs, tag) == Lookup(Fields(p), tag) {
      FieldsByLabel(p, tag);
    }
    LabelOrderDetermines(fs, Fields(p));
  }

  lemma JoinOfThree(a: string, b: string, c: string, sep: string)
    ensures Join([a, b, c], sep) == a + sep + b + sep + c
  {
    var t := [a, b, c];
    assert t[1..][1..] == [c];
    assert t[1..] == [b, c];
    assert Join(t[1..], sep) == b + sep + c;
  }

  lemma JoinOfFive(a: string, b: string, c: string, d: string, e: string, sep: string)
    ensures Join([a, b, c, d, e], sep) == a + sep + b + sep + c + sep + d + sep + e
  {
    var t := [a, b, c, d, e];
    assert t[1..][1..][1..][1..] == [e];
    assert Join(t[1..][1..][1..], sep) == d + sep + e;
    assert t[1..][1..] == [c, d, e];
    assert Join(t[1..][1..], sep) == c + sep + d + sep + e;
    assert t[1..] == [b, c, d, e];
    assert Join(t[1..], sep) == b + sep + c + sep + d + sep + e;
  }

  lemma JoinOfSix(a: string, b: string, c: string, d: string, e: string, f: string, sep: string)
    ensures Join([a, b, c, d, e, f], sep) == a + sep + b + sep + c + sep + d + sep + e + sep + f
  {
    var t := [a, b, c, d, e, f];
    assert t[1..] == [b, c, d, e, f];
    JoinOfFive(b, c, d, e, f, sep);
  }

  lemma TokensOfSingle(f: Field)
    ensures Tokens([f]) == [f.tag] + f.values
  {
    assert [f][1..] == [];
  }

  /** Pushing the tokens of a part of at most one field onto `before`
      gives `before` followed by that part's tokens. */
  lemma PushPart(before: seq<string>, after: seq<string>, part: seq<Field>)
    requires |part| <= 1
    requires after == if part == [] then before else before + [part[0].tag] + part[0].values
    ensures after == before + Tokens(part)
  {
    if part != [] {
      assert part == [part[0]];
      TokensOfSingle(part[0]);
    }
  }

  /** The tokens of the descriptor, part by part as the fields are pushed. */
  lemma TokensOfFields(p: Schema)
    requires ItemsPresent(p)
    ensures Tokens(Fields(p)) == ["Type:", p.typ, FormatToken(p.format)]
                                 + Tokens(ItemsPart(p))
                                 + Tokens(Optional("Title:", p.title))
                                 + Tokens(Optional("Desc:", p.description))
                                 + Tokens(Optional("Default:", p.default))
                                 + Tokens(EnumPart(p))
  {
    var typeField := Field("Type:", [p.typ, FormatToken(p.format)]);
    var a := [typeField] + ItemsPart(p);
    var b := a + Optional("Title:", p.title);
    var c := b + Optional("Desc:", p.description);
    var d := c + Optional("Default:", p.default);
    assert Tokens(a) == ["Type:", p.typ, FormatToken(p.format)] + Tokens(ItemsPart(p)) by {
      TokensOfSingle(typeField);
      TokensConcat([typeField], ItemsPart(p));
    }
    assert Tokens(b) == Tokens(a) + Tokens(Optional("Title:", p.title)) by {
      TokensConcat(a, Optional("Title:", p.title));
    }
    assert Tokens(c) == Tokens(b) + Tokens(Optional("Desc:", p.description)) by {
      TokensConcat(b, Optional("Desc:", p.description));
    }
    assert Tokens(d) == Tokens(c) + Tokens(Optional("Default:", p.default)) by {
      TokensConcat(c, Optional("Default:", p.default));
    }
    assert Tokens(d + EnumPart(p)) == Tokens(d) + Tokens(EnumPart(p)) by {
      TokensConcat(d, EnumPart(p));
    }
  }

  /** The joined tokens of a field list: those of its first field, then
      the rest after one more separator. */
  lemma JoinTokensAfterFirst(fs: seq<Field>, sep: string)
    requires fs != [] && fs[0].values != []
    ensures Join(Tokens(fs), sep) == Join([fs[0].tag] + fs[0].values, sep)
                                     + (if |fs| == 1 then "" else sep + Join(Tokens(fs[1..]), sep))
  {
    var head := [fs[0].tag] + fs[0].values;
    assert Tokens(fs) == head + Tokens(fs[1..]);
    if |fs| == 1 {
      assert Tokens(fs[1..]) == [];
      assert Tokens(fs) == head;
    } else {
      assert Tokens(fs[1..]) != [] by {
        assert Tokens(fs[1..])[0] == fs[1].tag;
      }
      JoinConcat(head, Tokens(fs[1..]), sep);
    }
  }

  /** The descriptor opens with the type and its format token; every other
      field follows after one more space. */
  lemma DescriptorStartsWithType(p: Schema)
    requires ItemsPresent(p)
    ensures Descriptor(p) == "Type: " + p.typ + " " + FormatToken(p.format)
                             + (if |Fields(p)| == 1 then "" else " " + Join(Tokens(Fields(p)[1..]), " "))
  {
    var fs := Fields(p);
    assert fs[0] == Field("Type:", [p.typ, FormatToken(p.format)]);
    JoinTokensAfterFirst(fs, " ");
    assert [fs[0].tag] + fs[0].values == ["Type:", p.typ, FormatToken(p.format)];
    JoinOfThree("Type:", p.typ, FormatToken(p.format), " ");
    assert "Type:" + " " == "Type: ";
  }

  /** The step `buildKeyContent` repeats for the title, the description
      and the default: push the label and the value when the value is set. */
  method PushIfSet(descArr: seq<string>, tag: string, value: string) returns (r: seq<string>)
    ensures r == descArr + Tokens(Optional(tag, value))
  {
    r := descArr;
    if value != "" {
      r := r + [tag, value];
    }
    PushPart(descArr, r, Optional(tag, value));
  }

  /** `buildKeyContent`: push the tokens field by field, then join them. */
  method BuildKeyContent(prop: Schema) returns (s: string)
    requires ItemsPresent(prop)
    ensures s == Descriptor(prop)
  {
    var descArr: seq<string> := ["Type:", prop.typ, FormatToken(prop.format)];

    ghost var before := descArr;
    if prop.typ == "array" {
      var item := prop.items.value;
      descArr := descArr + ["Items Type:", item.typ, FormatToken(item.format)];
    }
    PushPart(before, descArr, ItemsPart(prop));

    descArr := PushIfSet(descArr, "Title:", prop.title);
    descArr := PushIfSet(descArr, "Desc:", prop.description);
    descArr := PushIfSet(descArr, "Default:", prop.default);

    before := descArr;
    if prop.enum.Some? {
      descArr := descArr + ["Enum:", Join(prop.enum.value, ", ")];
    }
    PushPart(before, descArr, EnumPart(prop));

    assert descArr == Tokens(Fields(prop)) by {
      TokensOfFields(prop);
    }
    s := Join(descArr, " ");
  }

  lemma TokensOfFormattedTitledString()
    ensures Tokens(Fields(Schema(None, "string", "int64", "Match ID", "", "", None, None, None)))
            == ["Type:", "string", "(Format:int64)", "Title:", "Match ID"]
  {
    var p := Schema(None, "string", "int64", "Match ID", "", "", None, None, None);
    var fs := [Field("Type:", ["string", "(Format:int64)"]), Field("Title:", ["Match ID"])];
    assert Fields(p) == fs by {
      assert FormatToken("int64") == "(Format:int64)";
      assert ItemsPart(p) == [] && EnumPart(p) == [];
      assert Fields(p) == [fs[0]] + [] + [fs[1]] + [] + [] + [];
    }
    assert Tokens(fs[1..][1..]) == [];
    assert Tokens(fs[1..]) == ["Title:", "Match ID"];
  }

  /** A string property with a format and a title. */
  lemma DescriptorOfFormattedTitledString()
    ensures Descriptor(Schema(None, "string", "int64", "Match ID", "", "", None, None, None))
            == "Type: string (Format:int64) Title: Match ID"
  {
    TokensOfFormattedTitledString();
    JoinOfFormattedTitledString();
  }

  lemma JoinOfFormattedTitledString()
    ensures Join(["Type:", "string", "(Format:int64)", "Title:", "Match ID"], " ")
            == "Type: string (Format:int64) Title: Match ID"
  {
    JoinOfFive("Type:", "string", "(Format:int64)", "Title:", "Match ID", " ");
    assert "Type:" + " " + "string" + " " == "Type: string ";
    assert "Type: string " + "(Format:int64)" + " " == "Type: string (Format:int64) ";
    assert "Type: string (Format:int64) " + "Title:" + " " + "Match ID"
        == "Type: string (Format:int64) Title: Match ID";
  }

  /** A bare string property: the empty format token leaves a trailing space. */
  lemma DescriptorOfBareString()
    ensures Descriptor(Schema(None, "string", "", "", "", "", None, None, None)) == "Type: string "
  {
    var p := Schema(None, "string", "", "", "", "", None, None, None);
    var fs := [Field("Type:", ["string", ""])];
    assert Fields(p) == fs by {
      assert ItemsPart(p) == [] && EnumPart(p) == [];
      assert Fields(p) == fs + [] + [] + [] + [] + [];
    }
    assert Tokens(fs) == ["Type:", "string", ""] by {
      assert Tokens(fs[1..]) == [];
    }
    assert Join(["Type:", "string", ""], " ") == "Type: string " by {
      JoinOfThree("Type:", "string", "", " ");
      assert "Type:" + " " + "string" + " " + "" == "Type: string ";
    }
  }

  lemma TokensOfEnum()
    ensures Tokens(Fields(Schema(None, "string", "", "", "", "", Some(["WIN", "LOSE"]), None, None)))
            == ["Type:", "string", "", "Enum:", "WIN, LOSE"]
  {
    var p := Schema(None, "string", "", "", "", "", Some(["WIN", "LOSE"]), None, None);
    var fs := [Field("Type:", ["string", ""]), Field("Enum:", ["WIN, LOSE"])];
    assert Fields(p) == fs by {
      assert Join(["WIN", "LOSE"], ", ") == "WIN, LOSE" by {
        assert ["WIN", "LOSE"][1..] == ["LOSE"];
        assert "WIN" + ", " + "LOSE" == "WIN, LOSE";
      }
      assert ItemsPart(p) == [] && EnumPart(p) == [fs[1]];
      assert Fields(p) == [fs[0]] + [] + [] + [] + [] + [fs[1]];
    }
    assert Tokens(fs[1..][1..]) == [];
    assert Tokens(fs[1..]) == ["Enum:", "WIN, LOSE"];
  }

  /** An enumerated string property: the values are joined by ", ". */
  lemma DescriptorOfEnum()
    ensures Descriptor(Schema(None, "string", "", "", "", "", Some(["WIN", "LOSE"]), None, None))
            == "Type: string  Enum: WIN, LOSE"
  {
    TokensOfEnum();
    JoinOfEnum();
  }

  lemma JoinOfEnum()
    ensures Join(["Type:", "string", "", "Enum:", "WIN, LOSE"], " ") == "Type: string  Enum: WIN, LOSE"
  {
    JoinOfFive("Type:", "string", "", "Enum:", "WIN, LOSE", " ");
    assert "Type:" + " " + "string" + " " + "" + " " + "Enum:" + " " + "WIN, LOSE"
        == "Type: string  Enum: WIN, LOSE";
  }

  lemma TokensOfArray()
    ensures Tokens(Fields(Schema(None, "array", "", "", "", "", None, None,
                                 Some(Schema(None, "integer", "int32", "", "", "", None, None, None)))))
            == ["Type:", "array", "", "Items Type:", "integer", "(Format:int32)"]
  {
    var item := Schema(None, "integer", "int32", "", "", "", None, None, None);
    var p := Schema(None, "array", "", "", "", "", None, None, Some(item));
    var fs := [Field("Type:", ["array", ""]), Field("Items Type:", ["integer", "(Format:int32)"])];
    assert Fields(p) == fs by {
      assert FormatToken("int32") == "(Format:int32)";
      assert ItemsPart(p) == [fs[1]] && EnumPart(p) == [];
      assert Fields(p) == [fs[0]] + [fs[1]] + [] + [] + [] + [];
    }
    assert Tokens(fs[1..][1..]) == [];
    assert Tokens(fs[1..]) == ["Items Type:", "integer", "(Format:int32)"];
  }

  /** An array property: the item type and its format follow the array's own type. */
  lemma DescriptorOfArray()
    ensures Descriptor(Schema(None, "array", "", "", "", "", None, None,
                              Some(Schema(None, "integer", "int32", "", "", "", None, None, None))))
            == "Type: array  Items Type: integer (Format:int32)"
  {
    TokensOfArray();
    JoinOfArray();
  }

  lemma JoinOfArray()
    ensures Join(["Type:", "array", "", "Items Type:", "integer", "(Format:int32)"], " ")
            == "Type: array  Items Type: integer (Format:int32)"
  {
    JoinOfSix("Type:", "array", "", "Items Type:", "integer", "(Format:int32)", " ");
    assert "Type:" + " " + "array" + " " + "" + " " == "Type: array  ";
    assert "Type: array  " + "Items Type:" + " " + "integer" + " " + "(Format:int32)"
        == "Type: array  Items Type: integer (Format:int32)";
  }
}
