/** The data fragments the builders of both client copies place in the
    envelope's data slot: single elements, runs of elements built by a loop
    over a list, fixed records of elements, and the per-operation templates
    (cli/__init__.py:130-446, cli/client.py:100-374). Values are inserted as
    `str()` writes them, without escaping.

    Each fragment comes with a reader, and a lemma shows that reading the
    fragment gives back the inserted texts in the order they were given,
    whenever those texts hold no '<'. */
module Fragments {
  import opened Values
  import opened Scan

  // ---------------------------------------------------------------------
  // Elements and their readers
  // ---------------------------------------------------------------------

  /** `"<tag>{x}</tag>".format(x=content)` */
  function Element(tag: string, content: string): string {
    "<" + tag + ">" + content + "</" + tag + ">"
  }

  /** The element with tag `tag` at the start of `s`: its content, up to the
      next '<', and the text after its closing tag. */
  function ReadElement(tag: string, s: string): (r: Option<(string, string)>)
    ensures r.Some? ==> |r.value.1| < |s|
  {
    var afterOpen :- Skip(s, "<" + tag + ">");
    var n := Until(afterOpen, '<');
    var rest :- Skip(afterOpen[n..], "</" + tag + ">");
    Some((afterOpen[..n], rest))
  }

  lemma ElementReadsBack(tag: string, x: string, rest: string)
    requires '<' !in x
    ensures ReadElement(tag, Element(tag, x) + rest) == Some((x, rest))
  {
    var open := "<" + tag + ">";
    var close := "</" + tag + ">";
    var afterOpen := x + (close + rest);
    assert Element(tag, x) + rest == open + afterOpen;
    SkipLiteral(open, afterOpen);
    UntilAt(x, close + rest, '<');
    assert afterOpen[..|x|] == x && afterOpen[|x|..] == close + rest;
    SkipLiteral(close, rest);
  }

  /** The text between a literal opening and a literal closing, if `s` is
      made of the two with something between. */
  function Unwrap(open: string, close: string, s: string): Option<string> {
    var inner :- Skip(s, open);
    if EndsWith(inner, close) then Some(inner[..|inner| - |close|]) else None
  }

  lemma UnwrapReadsBack(open: string, inner: string, close: string)
    ensures Unwrap(open, close, open + inner + close) == Some(inner)
  {
    assert open + inner + close == open + (inner + close);
    SkipLiteral(open, inner + close);
    assert (inner + close)[..|inner|] == inner;
  }

  /** An element taken apart at its own tags gives back its content, whatever it holds. */
  lemma ElementUnwraps(tag: string, x: string)
    ensures Unwrap("<" + tag + ">", "</" + tag + ">", Element(tag, x)) == Some(x)
  {
    assert Element(tag, x) == ("<" + tag + ">") + x + ("</" + tag + ">");
    UnwrapReadsBack("<" + tag + ">", x, "</" + tag + ">");
  }

  // ---------------------------------------------------------------------
  // Runs of elements: the `<num>` and `<city_name>` lists
  // ---------------------------------------------------------------------

  /** `"".join("<tag>{x}</tag>".format(x=item) for item in items)` */
  function Elements(tag: string, items: seq<Value>): string {
    if items == [] then "" else Element(tag, Text(items[0])) + Elements(tag, items[1..])
  }

  /** `[str(item) for item in items]` */
  function Texts(items: seq<Value>): (r: seq<string>)
    ensures |r| == |items|
  {
    if items == [] then [] else [Text(items[0])] + Texts(items[1..])
  }

  /** Elements with tag `tag`, one after another up to the end of `s`. */
  function ReadElements(tag: string, s: string): Option<seq<string>>
    decreases |s|
  {
    if s == [] then Some([])
    else
      var first :- ReadElement(tag, s);
      var others :- ReadElements(tag, first.1);
      Some([first.0] + others)
  }

  /** Appending one item appends its element: the loop that collects the
      elements in a list and joins them builds Elements. */
  lemma {:induction false} ElementsSnoc(tag: string, items: seq<Value>, x: Value)
    ensures Elements(tag, items + [x]) == Elements(tag, items) + Element(tag, Text(x))
  {
    if items != [] {
      assert (items + [x])[1..] == items[1..] + [x];
      ElementsSnoc(tag, items[1..], x);
    }
  }

  /** Every item comes back out of its own element, in order. */
  lemma {:induction false} ElementsReadBack(tag: string, items: seq<Value>)
    requires forall k :: 0 <= k < |items| ==> '<' !in Text(items[k])
    ensures ReadElements(tag, Elements(tag, items)) == Some(Texts(items))
  {
    if items != [] {
      var rest := Elements(tag, items[1..]);
      ElementReadsBack(tag, Text(items[0]), rest);
      ElementsReadBack(tag, items[1..]);
    }
  }

  /** The loop of get_shipments, get_cities and cancel_shipments: one
      element per item appended to a list, then `"".join` of the list. */
  method JoinElements(tag: string, items: seq<Value>) returns (s: string)
    ensures s == Elements(tag, items)
  {
    var parts: seq<string> := [];
    var i := 0;
    while i < |items|
      invariant 0 <= i <= |items|
      invariant Concat(parts) == Elements(tag, items[..i])
    {
      ConcatSnoc(parts, Element(tag, Text(items[i])));
      ElementsSnoc(tag, items[..i], items[i]);
      assert items[..i + 1] == items[..i] + [items[i]];
      parts := parts + [Element(tag, Text(items[i]))];
      i := i + 1;
    }
    assert items[..i] == items;
    s := Concat(parts);
  }

  // ---------------------------------------------------------------------
  // Records: a fixed sequence of tagged fields
  // ---------------------------------------------------------------------

  /** Each content in an element of its own, in the order of `tags`, each
      element preceded by `sep`. */
  function Record(sep: string, tags: seq<string>, contents: seq<string>): string
    requires |tags| == |contents|
  {
    if tags == [] then "" else sep + Element(tags[0], contents[0]) + Record(sep, tags[1..], contents[1..])
  }

  /** The contents of the elements tagged `tags`, in that order, each after
      `sep`, at the start of `s`, and the text after them. */
  function ReadRecord(sep: string, tags: seq<string>, s: string): Option<(seq<string>, string)> {
    if tags == [] then Some(([], s))
    else
      var afterSep :- Skip(s, sep);
      var first :- ReadElement(tags[0], afterSep);
      var others :- ReadRecord(sep, tags[1..], first.1);
      Some(([first.0] + others.0, others.1))
  }

  /** Texts none of which holds a '<', so that none can be taken for a tag. */
  predicate Plain(texts: seq<string>) {
    forall k :: 0 <= k < |texts| ==> '<' !in texts[k]
  }

  /** Every field of a record comes back out of its own element, in order. */
  lemma {:induction false} RecordReadsBack(sep: string, tags: seq<string>, contents: seq<string>, rest: string)
    requires |tags| == |contents| && Plain(contents)
    ensures ReadRecord(sep, tags, Record(sep, tags, contents) + rest) == Some((contents, rest))
  {
    if tags != [] {
      RecordReadsBack(sep, tags[1..], contents[1..], rest);
      RecordReadsBackStep(sep, tags, contents, rest);
    } else {
      assert contents == [] && Record(sep, tags, contents) + rest == rest;
    }
  }

  /** The first field of a record is read from its element, and the rest of
      the record after it. */
  lemma RecordReadsBackStep(sep: string, tags: seq<string>, contents: seq<string>, rest: string)
    requires |tags| == |contents| && tags != [] && '<' !in contents[0]
    requires ReadRecord(sep, tags[1..], Record(sep, tags[1..], contents[1..]) + rest) == Some((contents[1..], rest))
    ensures ReadRecord(sep, tags, Record(sep, tags, contents) + rest) == Some((contents, rest))
  {
    var e := Element(tags[0], contents[0]);
    var r := Record(sep, tags[1..], contents[1..]);
    assert Record(sep, tags, contents) + rest == sep + (e + (r + rest)) by {
      Regroup(sep, e, r, rest);
    }
    SkipLiteral(sep, e + (r + rest));
    ElementReadsBack(tags[0], contents[0], r + rest);
    assert [contents[0]] + contents[1..] == contents;
    ReadRecordStep(sep, tags, Record(sep, tags, contents) + rest, e + (r + rest), contents[0], r + rest);
  }

  /** A record read on its own leaves nothing behind. */
  lemma RecordReadsWhole(sep: string, tags: seq<string>, contents: seq<string>)
    requires |tags| == |contents| && Plain(contents)
    ensures ReadRecord(sep, tags, Record(sep, tags, contents)) == Some((contents, ""))
  {
    RecordReadsBack(sep, tags, contents, "");
    assert Record(sep, tags, contents) + "" == Record(sep, tags, contents);
  }

  /** One step of ReadRecord: the separator, the first element, then the rest of the record. */
  lemma ReadRecordStep(sep: string, tags: seq<string>, s: string, afterSep: string, first: string, later: string)
    requires tags != [] && Skip(s, sep) == Some(afterSep) && ReadElement(tags[0], afterSep) == Some((first, later))
    ensures ReadRecord(sep, tags, s) ==
      match ReadRecord(sep, tags[1..], later)
      case None => None
      case Some(others) => Some(([first] + others.0, others.1))
  {
  }

  /** Records without separators of one, two and three fields are their
      elements one after another. */
  lemma RecordOfOne(t: string, c: string)
    ensures Record("", [t], [c]) == Element(t, c)
  {
    assert [t][1..] == [] && [c][1..] == [];
    assert Record("", [t], [c]) == "" + Element(t, c) + "";
    assert "" + Element(t, c) + "" == Element(t, c);
  }

  lemma RecordOfTwo(t1: string, c1: string, t2: string, c2: string)
    ensures Record("", [t1, t2], [c1, c2]) == Element(t1, c1) + Element(t2, c2)
  {
    assert [t1, t2][1..] == [t2] && [c1, c2][1..] == [c2];
    RecordOfOne(t2, c2);
    assert Record("", [t1, t2], [c1, c2]) == "" + Element(t1, c1) + Element(t2, c2);
    assert "" + Element(t1, c1) == Element(t1, c1);
  }

  lemma RecordOfThree(t1: string, c1: string, t2: string, c2: string, t3: string, c3: string)
    ensures Record("", [t1, t2, t3], [c1, c2, c3]) == Element(t1, c1) + Element(t2, c2) + Element(t3, c3)
  {
    assert [t1, t2, t3][1..] == [t2, t3] && [c1, c2, c3][1..] == [c2, c3];
    RecordOfTwo(t2, c2, t3, c3);
    assert Record("", [t1, t2, t3], [c1, c2, c3]) == "" + Element(t1, c1) + (Element(t2, c2) + Element(t3, c3));
    assert "" + Element(t1, c1) == Element(t1, c1);
  }

  // ---------------------------------------------------------------------
  // The fragments of the builders
  // ---------------------------------------------------------------------

  /** The `shipments` argument of get_shipments: a single int or str, or a
      list of ids. */
  datatype Shipments = Scalar(id: Value) | Many(ids: seq<Value>)

  /** `if not shipments:` fails for a falsy scalar and for an empty list. */
  predicate Given(shipments: Shipments) {
    match shipments
    case Scalar(id) => Truthy(id)
    case Many(ids) => ids != []
  }

  /** `"".join(numbers)`: a scalar is written bare, a list one `<num>` per id. */
  function ShipmentNumbers(shipments: Shipments): string {
    match shipments
    case Scalar(id) => Text(id)
    case Many(ids) => Elements("num", ids)
  }

  /** `<shipments full_tracking='{detailed}'>`, the flag "ON" or "". */
  function TrackingOpen(detailed: bool): string {
    "<shipments full_tracking='" + (if detailed then "ON" else "") + "'>"
  }

  /** `<shipments full_tracking='{detailed}'>{data}</shipments>` */
  function ShipmentsData(detailed: bool, numbers: string): string {
    TrackingOpen(detailed) + numbers + "</shipments>"
  }

  /** A list of shipment ids comes back one `<num>` per id, in order, and the
      tracking flag reads "ON" exactly when detailed tracking was asked for. */
  lemma ShipmentListReadsBack(detailed: bool, ids: seq<Value>)
    requires forall k :: 0 <= k < |ids| ==> '<' !in Text(ids[k])
    ensures Unwrap(TrackingOpen(detailed), "</shipments>", ShipmentsData(detailed, ShipmentNumbers(Many(ids))))
         == Some(Elements("num", ids))
    ensures ReadElements("num", Elements("num", ids)) == Some(Texts(ids))
  {
    assert Unwrap(TrackingOpen(detailed), "</shipments>", ShipmentsData(detailed, ShipmentNumbers(Many(ids))))
        == Some(Elements("num", ids)) by {
      UnwrapReadsBack(TrackingOpen(detailed), Elements("num", ids), "</shipments>");
    }
    assert ReadElements("num", Elements("num", ids)) == Some(Texts(ids)) by {
      ElementsReadBack("num", ids);
    }
  }

  /** The tracking attribute reads "ON" exactly when detailed tracking is
      asked for, and is empty otherwise. */
  lemma TrackingFlag(detailed: bool)
    ensures TrackingOpen(detailed) == "<shipments full_tracking='ON'>" <==> detailed
    ensures TrackingOpen(detailed) == "<shipments full_tracking=''>" <==> !detailed
  {
    if detailed {
      assert |TrackingOpen(detailed)| != |"<shipments full_tracking=''>"|;
    } else {
      assert |TrackingOpen(detailed)| != |"<shipments full_tracking='ON'>"|;
    }
  }

  /** A single id is written without a `<num>` element: the list reader finds
      no element where a one-item list would give one. */
  lemma ScalarIsBare(detailed: bool, id: Value)
    requires Truthy(id) && '<' !in Text(id)
    ensures Unwrap(TrackingOpen(detailed), "</shipments>", ShipmentsData(detailed, ShipmentNumbers(Scalar(id))))
         == Some(Text(id))
    ensures ReadElements("num", Text(id)) == None
    ensures ReadElements("num", ShipmentNumbers(Many([id]))) == Some([Text(id)])
  {
    UnwrapReadsBack(TrackingOpen(detailed), Text(id), "</shipments>");
    assert Text(id) != [] && Text(id)[0] != '<';
    ElementsReadBack("num", [id]);
    assert Texts([id]) == [Text(id)];
  }

  const CityTags: seq<string> := ["report_type", "id_zone"]

  /** `<cities><report_type>{report_type}</report_type><id_zone>{zone_id}</id_zone>{data}</cities>` */
  function CitiesData(reportType: Value, zoneId: Value, names: string): string {
    "<cities>" + Element("report_type", Text(reportType)) + Element("id_zone", Text(zoneId)) + names + "</cities>"
  }

  /** The cities fragment is the record of its two fields followed by the
      names, inside `<cities>`. */
  lemma CitiesLayout(reportType: Value, zoneId: Value, names: string)
    ensures CitiesData(reportType, zoneId, names)
         == "<cities>" + (Record("", CityTags, [Text(reportType), Text(zoneId)]) + names) + "</cities>"
  {
    var first := Element("report_type", Text(reportType));
    var second := Element("id_zone", Text(zoneId));
    RecordOfTwo("report_type", Text(reportType), "id_zone", Text(zoneId));
    Regroup("<cities>", first, second, names);
  }

  /** The report type, then the zone, then the city names: the record of the
      two fields is followed by the run of `<city_name>` elements, which
      ElementsReadBack reads back one city per element in order. */
  lemma CitiesReadBack(reportType: Value, zoneId: Value, cities: seq<Value>)
    requires '<' !in Text(reportType) && '<' !in Text(zoneId)
    ensures Unwrap("<cities>", "</cities>", CitiesData(reportType, zoneId, Elements("city_name", cities)))
         == Some(Record("", CityTags, [Text(reportType), Text(zoneId)]) + Elements("city_name", cities))
    ensures ReadRecord("", CityTags, Record("", CityTags, [Text(reportType), Text(zoneId)]) + Elements("city_name", cities))
         == Some(([Text(reportType), Text(zoneId)], Elements("city_name", cities)))
  {
    var names := Elements("city_name", cities);
    var contents := [Text(reportType), Text(zoneId)];
    CitiesLayout(reportType, zoneId, names);
    UnwrapReadsBack("<cities>", Record("", CityTags, contents) + names, "</cities>");
    assert Plain(contents);
    RecordReadsBack("", CityTags, contents, names);
  }

  const AddressTags: seq<string> := ["city", "post_code", "quarter", "street", "street_num", "street_bl",
                                     "street_vh", "street_et", "street_ap", "street_other", "email_on_delivery"]

  /** The indentation the line continuations of the address template leave
      before each field (24 spaces) and before the closing tag (20). */
  const FieldIndent := "                        "
  const CloseIndent := "                    "

  /** The eleven fields of an address, in template order, as `str()` writes them. */
  function AddressFields(city: Value, postCode: Value, quarter: Value, street: Value, streetNum: Value,
                         building: Value, entrance: Value, floor: Value, apartment: Value, other: Value,
                         email: Value): seq<string>
  {
    [Text(city), Text(postCode), Text(quarter), Text(street), Text(streetNum), Text(building),
     Text(entrance), Text(floor), Text(apartment), Text(other), Text(email)]
  }

  /** The check_address fragment of validate_address: `<address>`, then the
      eleven fields in template order, each in its own element after the
      field indentation, then the closing indentation and `</address>`. */
  function AddressData(city: Value, postCode: Value, quarter: Value, street: Value, streetNum: Value,
                       building: Value, entrance: Value, floor: Value, apartment: Value, other: Value,
                       email: Value): string
  {
    "<address>" + Record(FieldIndent, AddressTags,
      AddressFields(city, postCode, quarter, street, streetNum, building, entrance, floor, apartment, other, email))
      + CloseIndent + "</address>"
  }

  /** Each address field comes back out of its own element, in template
      order; a field left out reads "None". */
  lemma AddressReadsBack(city: Value, postCode: Value, quarter: Value, street: Value, streetNum: Value,
                         building: Value, entrance: Value, floor: Value, apartment: Value, other: Value,
                         email: Value)
    requires Plain(AddressFields(city, postCode, quarter, street, streetNum, building, entrance, floor, apartment, other, email))
    ensures Unwrap("<address>", CloseIndent + "</address>",
                   AddressData(city, postCode, quarter, street, streetNum, building, entrance, floor, apartment, other, email))
         == Some(Record(FieldIndent, AddressTags,
                        AddressFields(city, postCode, quarter, street, streetNum, building, entrance, floor, apartment, other, email)))
    ensures ReadRecord(FieldIndent, AddressTags, Record(FieldIndent, AddressTags,
                        AddressFields(city, postCode, quarter, street, streetNum, building, entrance, floor, apartment, other, email)))
         == Some((AddressFields(city, postCode, quarter, street, streetNum, building, entrance, floor, apartment, other, email), ""))
  {
    var contents := AddressFields(city, postCode, quarter, street, streetNum, building, entrance, floor, apartment, other, email);
    AddressUnwraps(Record(FieldIndent, AddressTags, contents));
    RecordReadsWhole(FieldIndent, AddressTags, contents);
  }

  lemma AddressUnwraps(fields: string)
    ensures Unwrap("<address>", CloseIndent + "</address>", "<address>" + fields + CloseIndent + "</address>") == Some(fields)
  {
    assert "<address>" + fields + CloseIndent + "</address>" == "<address>" + fields + (CloseIndent + "</address>");
    UnwrapReadsBack("<address>", fields, CloseIndent + "</address>");
  }

  const ClientInfoTags: seq<string> := ["ein", "egn", "id"]

  /** `<ein>{ein}</ein><egn>{egn}</egn><id>{id}</id>` */
  function ClientInfoData(ein: Value, egn: Value, clientId: Value): string {
    Element("ein", Text(ein)) + Element("egn", Text(egn)) + Element("id", Text(clientId))
  }

  /** The EIN, the EGN and the client id, in that order. */
  lemma ClientInfoReadsBack(ein: Value, egn: Value, clientId: Value)
    requires '<' !in Text(ein) && '<' !in Text(egn) && '<' !in Text(clientId)
    ensures ReadRecord("", ClientInfoTags, ClientInfoData(ein, egn, clientId))
         == Some(([Text(ein), Text(egn), Text(clientId)], ""))
  {
    var contents := [Text(ein), Text(egn), Text(clientId)];
    RecordOfThree("ein", Text(ein), "egn", Text(egn), "id", Text(clientId));
    assert Plain(contents);
    RecordReadsWhole("", ClientInfoTags, contents);
  }

  const AgreementTags: seq<string> := ["client_name", "cd_agreement"]

  /** `<client_name>{client_name}</client_name><cd_agreement>{cd_agreement_id}</cd_agreement>` */
  function AgreementData(clientName: Value, agreementId: Value): string {
    Element("client_name", Text(clientName)) + Element("cd_agreement", Text(agreementId))
  }

  /** The client name, then the agreement id. */
  lemma AgreementReadsBack(clientName: Value, agreementId: Value)
    requires '<' !in Text(clientName) && '<' !in Text(agreementId)
    ensures ReadRecord("", AgreementTags, AgreementData(clientName, agreementId))
         == Some(([Text(clientName), Text(agreementId)], ""))
  {
    var contents := [Text(clientName), Text(agreementId)];
    RecordOfTwo("client_name", Text(clientName), "cd_agreement", Text(agreementId));
    assert Plain(contents);
    RecordReadsWhole("", AgreementTags, contents);
  }

  /** `<mediator>{mediator}</mediator>`, followed by
      `<from_date>{from_date}</from_date>` when a start date is given ("" when
      it is not). */
  function MediatorData(mediatorId: Value, fromDate: string): string {
    if fromDate == "" then Element("mediator", Text(mediatorId))
    else Element("mediator", Text(mediatorId)) + Element("from_date", fromDate)
  }

  /** The mediator id comes first; the start date follows in its own element
      exactly when one is given. */
  lemma MediatorReadsBack(mediatorId: Value, fromDate: string)
    requires '<' !in Text(mediatorId) && '<' !in fromDate
    ensures fromDate == "" ==>
      ReadRecord("", ["mediator"], MediatorData(mediatorId, fromDate)) == Some(([Text(mediatorId)], ""))
    ensures fromDate != "" ==>
      ReadRecord("", ["mediator", "from_date"], MediatorData(mediatorId, fromDate)) == Some(([Text(mediatorId), fromDate], ""))
  {
    if fromDate == "" {
      RecordOfOne("mediator", Text(mediatorId));
      assert Plain([Text(mediatorId)]);
      RecordReadsWhole("", ["mediator"], [Text(mediatorId)]);
    } else {
      RecordOfTwo("mediator", Text(mediatorId), "from_date", fromDate);
      assert Plain([Text(mediatorId), fromDate]);
      RecordReadsWhole("", ["mediator", "from_date"], [Text(mediatorId), fromDate]);
    }
  }
}
