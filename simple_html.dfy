/// `json_to_simple_html` and its inner `convert_value` (utils/json2html.py):
/// a dict becomes a heading and the renderings of its items; a list becomes a
/// heading and a bullet list whose dict items are flattened to "key: value"
/// lines; anything else becomes one "key: value" paragraph. Texts are
/// interpolated as they are, without escaping.
module SimpleHtml {
  import opened Common

  function Heading(key: string): string
  {
    "<h3>" + key + "</h3>\n"
  }

  /** The rendering of one key and value by `convert_value`. */
  function Converted(key: string, value: Json, o: Oracles): (r: string)
    ensures |r| > 0 && r[|r| - 1] == '\n'
    decreases value, 1
  {
    match value
    case Dict(fields) => Heading(key) + ConvertedFields(fields, o)
    case List(items) => Heading(key) + "<ul>\n" + ListItems(items, o) + "</ul>\n"
    case _ => "<p><strong>" + key + ":</strong> " + Show(value, o) + "</p>\n"
  }

  /** The renderings of a dict's items, in item order. */
  function ConvertedFields(fields: seq<(string, Json)>, o: Oracles): string
    decreases fields, 0
  {
    if fields == [] then ""
    else
      var last := fields[|fields| - 1];
      assert last in fields && last.1 < last;
      ConvertedFields(fields[..|fields| - 1], o) + Converted(last.0, last.1, o)
  }

  /** One bullet of a list: a dict item lists its items inline, with the
      str() of each value (nested values are not rendered recursively). */
  function ListItem(item: Json, o: Oracles): string
  {
    if item.Dict? then "<li>\n" + InlineFields(item.fields, o) + "</li>\n"
    else "<li>" + Show(item, o) + "</li>\n"
  }

  function InlineField(field: (string, Json), o: Oracles): string
  {
    "<strong>" + field.0 + ":</strong> " + Show(field.1, o) + "<br>\n"
  }

  function InlineFields(fields: seq<(string, Json)>, o: Oracles): string
  {
    if fields == [] then ""
    else InlineFields(fields[..|fields| - 1], o) + InlineField(fields[|fields| - 1], o)
  }

  function ListItems(items: seq<Json>, o: Oracles): string
  {
    if items == [] then ""
    else ListItems(items[..|items| - 1], o) + ListItem(items[|items| - 1], o)
  }

  /** The bullets of one more item are those before it and its own. */
  lemma ListItemsSnoc(items: seq<Json>, i: nat, o: Oracles)
    requires i < |items|
    ensures ListItems(items[..i + 1], o) == ListItems(items[..i], o) + ListItem(items[i], o)
  {
    assert items[..i + 1][..i] == items[..i];
  }

  /** The fixed page around the body. */
  const PageHead: string :=
    "\n    <!DOCTYPE html>\n    <html>\n    <head>\n        <style>\n" +
    "            body { font-family: Arial, sans-serif; margin: 20px; }\n" +
    "            h3 { color: #333; }\n" +
    "            p { margin: 5px 0; }\n" +
    "            ul { margin: 10px 0; }\n" +
    "        </style>\n    </head>\n    <body>\n        "
  const PageTail: string := "\n    </body>\n    </html>\n    "

  /** The whole page for `data`: only a dict has a body. */
  function SimplePage(data: Json, o: Oracles): string
  {
    PageHead + (if data.Dict? then ConvertedFields(data.fields, o) else "") + PageTail
  }

  /** Rendering a dict is rendering its items one after the other: the blocks
      of two runs of items are the blocks of the first followed by those of the second. */
  lemma {:induction false} ConvertedFieldsAppend(a: seq<(string, Json)>, b: seq<(string, Json)>, o: Oracles)
    ensures ConvertedFields(a + b, o) == ConvertedFields(a, o) + ConvertedFields(b, o)
    decreases |b|
  {
    if b == [] {
      assert a + b == a;
    } else {
      var b' := b[..|b| - 1];
      assert (a + b)[..|a + b| - 1] == a + b';
      assert (a + b)[|a + b| - 1] == b[|b| - 1];
      ConvertedFieldsAppend(a, b', o);
    }
  }

  /** Each item of a dict contributes its own block, in item order. */
  lemma {:induction false} ConvertedFieldsBlocks(fields: seq<(string, Json)>, i: nat, o: Oracles)
    requires i < |fields|
    ensures ConvertedFields(fields, o) ==
            ConvertedFields(fields[..i], o) + Converted(fields[i].0, fields[i].1, o) + ConvertedFields(fields[i + 1..], o)
  {
    var upTo := fields[..i + 1];
    assert fields == upTo + fields[i + 1..];
    ConvertedFieldsAppend(upTo, fields[i + 1..], o);
    assert upTo[..i] == fields[..i] && upTo[i] == fields[i];
  }

  /** A value that is not a dict yields the page with an empty body. */
  lemma NonDictPageIsEmpty(data: Json, o: Oracles)
    requires !data.Dict?
    ensures SimplePage(data, o) == PageHead + PageTail
  {
  }

  /** `convert_value`, with the loops of the source. */
  method ConvertValue(key: string, value: Json, o: Oracles) returns (html: string)
    ensures html == Converted(key, value, o)
    decreases value, 1
  {
    match value
    case Dict(fields) =>
      var items := ConvertFields(fields, o);
      html := Heading(key) + items;
    case List(items) =>
      var bullets := ConvertListItems(items, o);
      html := Heading(key) + "<ul>\n" + bullets + "</ul>\n";
    case _ =>
      html := "<p><strong>" + key + ":</strong> " + Show(value, o) + "</p>\n";
  }

  /** The loop of `convert_value` over a dict's items (also the loop of
      `json_to_simple_html` over the top-level dict). */
  method ConvertFields(fields: seq<(string, Json)>, o: Oracles) returns (html: string)
    ensures html == ConvertedFields(fields, o)
    decreases fields, 0
  {
    html := "";
    var i := 0;
    while i < |fields|
      invariant 0 <= i <= |fields|
      invariant html == ConvertedFields(fields[..i], o)
    {
      assert fields[i] in fields && fields[i].1 < fields[i];
      var part := ConvertValue(fields[i].0, fields[i].1, o);
      assert fields[..i + 1][..i] == fields[..i];
      html := html + part;
      i := i + 1;
    }
    assert fields[..i] == fields;
  }

  /** The loop of `convert_value` over a list's items. */
  method ConvertListItems(items: seq<Json>, o: Oracles) returns (html: string)
    ensures html == ListItems(items, o)
  {
    html := "";
    var i := 0;
    while i < |items|
      invariant 0 <= i <= |items|
      invariant html == ListItems(items[..i], o)
    {
      var item := items[i];
      var bullet;
      if item.Dict? {
        var inline := ConvertInlineFields(item.fields, o);
        bullet := "<li>\n" + inline + "</li>\n";
      } else {
        bullet := "<li>" + Show(item, o) + "</li>\n";
      }
      assert bullet == ListItem(item, o);
      ListItemsSnoc(items, i, o);
      html := html + bullet;
      i := i + 1;
    }
    assert items[..i] == items;
  }

  /** The inner loop over the items of a dict inside a list. */
  method ConvertInlineFields(fields: seq<(string, Json)>, o: Oracles) returns (html: string)
    ensures html == InlineFields(fields, o)
  {
    html := "";
    var j := 0;
    while j < |fields|
      invariant 0 <= j <= |fields|
      invariant html == InlineFields(fields[..j], o)
    {
      assert fields[..j + 1][..j] == fields[..j];
      html := html + "<strong>" + fields[j].0 + ":</strong> " + Show(fields[j].1, o) + "<br>\n";
      j := j + 1;
    }
    assert fields[..j] == fields;
  }

  /** `json_to_simple_html`. */
  method JsonToSimpleHtml(data: Json, o: Oracles) returns (page: string)
    ensures page == SimplePage(data, o)
  {
    var body := "";
    if data.Dict? {
      body := ConvertFields(data.fields, o);
    }
    page := PageHead + body + PageTail;
  }
}
