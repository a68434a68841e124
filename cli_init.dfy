/** The client of cli/__init__.py: request types numbered from 1, with
    check_address among them; credentials fixed when the client is created;
    a request type id checked for truthiness before the dictionary lookup; and
    a template whose line continuations leave the next line's indentation but
    no trailing space. */
module CliInit {
  import opened Values
  import opened Errors
  import opened Catalog
  import opened DateFormats
  import opened Fragments
  import Envelope

  const RequestShipments := 1
  const RequestCitiesZones := 2
  const RequestCities := 3
  const RequestCitiesRegions := 4
  const RequestCitiesStreets := 5
  const RequestCitiesQuarters := 6
  const RequestOffices := 7
  const RequestPostBoxes := 8
  const RequestTariffCourier := 9
  const RequestTariffPost := 10
  const RequestProfile := 11
  const RequestRegistrationRequest := 12
  const RequestCountries := 13
  const RequestCancelShipments := 14
  const RequestDeliveryDays := 15
  const RequestAccountRoles := 16
  const RequestClientInfo := 17
  const RequestAccessClients := 18
  const RequestCheckCdAgreement := 19
  const RequestMediatorData := 20
  const RequestCheckAddress := 21

  /** REQUEST_TYPES */
  const RequestTypes: seq<Row> := [
    (RequestShipments, "shipments"), (RequestCitiesZones, "cities_zones"),
    (RequestCities, "cities"), (RequestCitiesRegions, "cities_regions"),
    (RequestCitiesStreets, "cities_streets"),
    (RequestCitiesQuarters, "cities_quarters"), (RequestOffices, "offices"),
    (RequestPostBoxes, "post_boxes"),
    (RequestTariffCourier, "tariff_courier"),
    (RequestTariffPost, "tariff_post"), (RequestProfile, "profile"),
    (RequestRegistrationRequest, "registration_request"),
    (RequestCountries, "countries"),
    (RequestCancelShipments, "cancel_shipments"),
    (RequestDeliveryDays, "delivery_days"),
    (RequestAccountRoles, "account_roles"),
    (RequestClientInfo, "client_info"),
    (RequestAccessClients, "access_clients"),
    (RequestCheckCdAgreement, "check_cd_agreement"),
    (RequestMediatorData, "mediator_data"),
    (RequestCheckAddress, "check_address")]

  /** TEMPLATE: each line continuation joins the next line, indentation
      included. */
  const Template := Envelope.Template(
    "<?xml version=\"1.0\" encoding=\"UTF-8\"?><request>    <client>        <username>",
    "</username>        <password>",
    "</password>    </client>    <request_type>",
    "</request_type>    <updated_time>",
    "</updated_time>    ",
    "    <client_software>",
    "</client_software></request>")

  /** The default `client_software` of `request`. */
  const DefaultClientSoftware := "EcontPy"

  /** The dictionary of REQUEST_TYPES maps each id 1..21 to the name in its
      row, and has no other key. */
  lemma {:induction false} CatalogLookup(id: int)
    ensures Lookup(RequestTypes, VInt(id)) == if 1 <= id <= 21 then Some(RequestTypes[id - 1].1) else None
  {
    assert forall j :: 0 <= j < |RequestTypes| ==> RequestTypes[j].0 == j + 1;
    if 1 <= id <= 21 {
      LookupRow(RequestTypes, id - 1);
    } else {
      LookupMissing(RequestTypes, id);
    }
  }

  /** The membership test of `request` admits exactly the ids 1..21 among
      the integers, and admits a string only if it is one of the wire names,
      none of which is empty or holds a tag character. */
  lemma Membership(key: Value)
    ensures key.VInt? ==> (InAnyRow(RequestTypes, key) <==> 1 <= key.i <= 21)
    ensures key.VStr? && InAnyRow(RequestTypes, key) ==> key.s != "" && '<' !in key.s
    ensures !key.VNone? || !InAnyRow(RequestTypes, key)
  {
    if key.VInt? {
      assert InAnyRow(RequestTypes, key) <==> 1 <= key.i <= 21 by {
        LookupAgreesWithMembership(RequestTypes, key.i);
        CatalogLookup(key.i);
      }
    }
    if key.VStr? && InAnyRow(RequestTypes, key) {
      var k :| 0 <= k < |RequestTypes| && InRow(RequestTypes[k], key);
      assert key.s != "" && '<' !in key.s by {
        PlainName(k);
      }
    }
  }

  /** No wire name is empty or holds '<'. */
  lemma PlainName(k: int)
    requires 0 <= k < |RequestTypes|
    ensures RequestTypes[k].1 != "" && '<' !in RequestTypes[k].1
  {
    if k < 7 {
      PlainNameLow(k);
    } else if k < 14 {
      PlainNameMid(k);
    } else {
      PlainNameHigh(k);
    }
  }

  // The rows in three groups, each small enough to check one by one.

  lemma PlainNameLow(k: int)
    requires 0 <= k < 7
    ensures RequestTypes[k].1 != "" && '<' !in RequestTypes[k].1
  {
  }

  lemma PlainNameMid(k: int)
    requires 7 <= k < 14
    ensures RequestTypes[k].1 != "" && '<' !in RequestTypes[k].1
  {
  }

  lemma PlainNameHigh(k: int)
    requires 14 <= k < 21
    ensures RequestTypes[k].1 != "" && '<' !in RequestTypes[k].1
  {
  }

  /** No two rows of the catalog share an id. */
  lemma IdsDistinct()
    ensures DistinctIds(RequestTypes)
  {
    assert forall j :: 0 <= j < |RequestTypes| ==> RequestTypes[j].0 == j + 1;
  }

  class Client {
    var username: Value
    var password: Value
    var demo: bool

    constructor (username: Value, password: Value, demo: bool)
      requires Truthy(username) && Truthy(password)
      ensures this.username == username && this.password == password && this.demo == demo
    {
      this.username := username;
      this.password := password;
      this.demo := demo;
    }

    /** `Client(username, password, demo)`: raises unless both credentials
        are truthy. */
    static method Create(username: Value, password: Value, demo: bool) returns (r: Result<Client, Error>)
      ensures r.Failure? <==> !Truthy(username) || !Truthy(password)
      ensures r.Failure? ==> r.error == Raised(NoCredentials)
      ensures r.Success? ==> fresh(r.value) && Truthy(r.value.username) && Truthy(r.value.password)
      ensures r.Success? ==> r.value.username == username && r.value.password == password && r.value.demo == demo
    {
      if !Truthy(username) || !Truthy(password) {
        return Failure(Raised(NoCredentials));
      }
      var c := new Client(username, password, demo);
      return Success(c);
    }

    /** `get_request_type`: a falsy id is refused before the lookup, an id
        without a row raises KeyError. */
    function GetRequestType(typeId: Value): (r: Result<string, Error>)
      ensures !Truthy(typeId) ==> r == Failure(Raised(NoTypeId))
      ensures Truthy(typeId) && typeId.VInt? && 1 <= typeId.i <= 21 ==> r == Success(RequestTypes[typeId.i - 1].1)
      ensures Truthy(typeId) && !(typeId.VInt? && 1 <= typeId.i <= 21) ==> r == Failure(KeyError(typeId))
    {
      if !Truthy(typeId) then Failure(Raised(NoTypeId))
      else
        if typeId.VInt? then CatalogLookup(typeId.i); Found(typeId)
        else Found(typeId)
    }

    /** `dict(REQUEST_TYPES)[typeId]` */
    function Found(typeId: Value): Result<string, Error> {
      match Lookup(RequestTypes, typeId)
      case Some(name) => Success(name)
      case None => Failure(KeyError(typeId))
    }

    /** The rendering part of `request`: the type must be in a row of the
        catalog; an id 1..21 renders the envelope with the type's wire name,
        while a wire name passed in place of its id passes the test and then
        fails the lookup. */
    function Request(requestType: Value, data: Value, updatedTime: Value, clientSoftware: Value): (r: Result<string, Error>)
      reads this
      ensures r.Success? <==> requestType.VInt? && 1 <= requestType.i <= 21
      ensures !InAnyRow(RequestTypes, requestType) ==> r == Failure(Raised(InvalidRequestType))
      ensures requestType.VStr? && InAnyRow(RequestTypes, requestType) ==> r == Failure(KeyError(requestType))
      ensures r.Success? ==>
        r.value == Envelope.Render(Template, Envelope.Fields(Text(username), Text(password),
          RequestTypes[requestType.i - 1].1, TextOrEmpty(updatedTime), TextOrEmpty(data), Text(clientSoftware)))
    {
      Membership(requestType);
      if !InAnyRow(RequestTypes, requestType) then Failure(Raised(InvalidRequestType))
      else
        var name :- GetRequestType(requestType);
        Success(Envelope.Render(Template, Envelope.Fields(Text(username), Text(password),
          name, TextOrEmpty(updatedTime), TextOrEmpty(data), Text(clientSoftware))))
    }

    /** The envelope of a request with the given wire name, updated time and
        data, with this client's credentials and the default label. */
    function Rendered(name: string, updatedTime: string, data: string): string
      reads this
    {
      Envelope.Render(Template, Envelope.Fields(Text(username), Text(password), name, updatedTime, data, DefaultClientSoftware))
    }

    /** `request(request_type, data, updated_time)` as the builders call it:
        no updated time is passed when none is given. */
    function Send(requestType: int, data: string, updatedTime: string): (r: Result<string, Error>)
      reads this
      ensures 1 <= requestType <= 21 ==> r == Success(Rendered(RequestTypes[requestType - 1].1, updatedTime, data))
    {
      Request(VInt(requestType), Optional(data), Optional(updatedTime), VStr(DefaultClientSoftware))
    }

    /** `get_shipments`: a falsy argument is refused; a list gives one
        `<num>` per id in order, a single id is written bare. */
    method GetShipments(shipments: Shipments, detailed: bool) returns (r: Result<string, Error>)
      ensures !Given(shipments) ==> r == Failure(Raised(InvalidShipmentIds))
      ensures Given(shipments) ==>
        r == Success(Rendered("shipments", "", ShipmentsData(detailed, ShipmentNumbers(shipments))))
    {
      if !Given(shipments) {
        return Failure(Raised(InvalidShipmentIds));
      }
      var numbers: string;
      match shipments {
        case Scalar(id) =>
          numbers := Text(id);
        case Many(ids) =>
          numbers := JoinElements("num", ids);
      }
      r := Send(RequestShipments, ShipmentsData(detailed, numbers), "");
    }

    /** `validate_address`: a city is required; every other field left out
        is written as "None". */
    function ValidateAddress(city: Value, postCode: Value, quarter: Value, street: Value, streetNum: Value,
                             building: Value, entrance: Value, floor: Value, apartment: Value, other: Value,
                             email: Value): (r: Result<string, Error>)
      reads this
      ensures !Truthy(city) ==> r == Failure(Raised(InvalidCity))
      ensures Truthy(city) ==>
        r == Success(Rendered("check_address", "",
          AddressData(city, postCode, quarter, street, streetNum, building, entrance, floor, apartment, other, email)))
    {
      if !Truthy(city) then Failure(Raised(InvalidCity))
      else Send(RequestCheckAddress,
        AddressData(city, postCode, quarter, street, streetNum, building, entrance, floor, apartment, other, email), "")
    }

    /** The listings that take only an optional updated time: it is checked
        against UPDATED_TIME_FORMAT when given and left out otherwise. */
    function Since(requestType: int, updatedTime: string): (r: Result<string, Error>)
      reads this
      ensures updatedTime != "" && !MatchesUpdatedTime(updatedTime) ==> r == Failure(Raised(InvalidDate))
      ensures 1 <= requestType <= 21 && (updatedTime == "" || MatchesUpdatedTime(updatedTime)) ==>
        r == Success(Rendered(RequestTypes[requestType - 1].1, updatedTime, ""))
    {
      if updatedTime != "" && !MatchesUpdatedTime(updatedTime) then Failure(Raised(InvalidDate))
      else Send(requestType, "", updatedTime)
    }

    function GetCitiesZones(updatedTime: string): (r: Result<string, Error>)
      reads this
      ensures updatedTime != "" && !MatchesUpdatedTime(updatedTime) ==> r == Failure(Raised(InvalidDate))
      ensures updatedTime == "" || MatchesUpdatedTime(updatedTime) ==> r == Success(Rendered("cities_zones", updatedTime, ""))
    {
      Since(RequestCitiesZones, updatedTime)
    }

    function GetCitiesRegions(updatedTime: string): (r: Result<string, Error>)
      reads this
      ensures updatedTime != "" && !MatchesUpdatedTime(updatedTime) ==> r == Failure(Raised(InvalidDate))
      ensures updatedTime == "" || MatchesUpdatedTime(updatedTime) ==> r == Success(Rendered("cities_regions", updatedTime, ""))
    {
      Since(RequestCitiesRegions, updatedTime)
    }

    function GetCitiesStreets(updatedTime: string): (r: Result<string, Error>)
      reads this
      ensures updatedTime != "" && !MatchesUpdatedTime(updatedTime) ==> r == Failure(Raised(InvalidDate))
      ensures updatedTime == "" || MatchesUpdatedTime(updatedTime) ==> r == Success(Rendered("cities_streets", updatedTime, ""))
    {
      Since(RequestCitiesStreets, updatedTime)
    }

    function GetCitiesQuarters(updatedTime: string): (r: Result<string, Error>)
      reads this
      ensures updatedTime != "" && !MatchesUpdatedTime(updatedTime) ==> r == Failure(Raised(InvalidDate))
      ensures updatedTime == "" || MatchesUpdatedTime(updatedTime) ==> r == Success(Rendered("cities_quarters", updatedTime, ""))
    {
      Since(RequestCitiesQuarters, updatedTime)
    }

    function GetOffices(updatedTime: string): (r: Result<string, Error>)
      reads this
      ensures updatedTime != "" && !MatchesUpdatedTime(updatedTime) ==> r == Failure(Raised(InvalidDate))
      ensures updatedTime == "" || MatchesUpdatedTime(updatedTime) ==> r == Success(Rendered("offices", updatedTime, ""))
    {
      Since(RequestOffices, updatedTime)
    }

    /** `get_cities`: with cities, the report type, the zone and one
        `<city_name>` per city in order; without, no data. A bad updated
        time is refused either way. */
    method GetCities(cities: seq<Value>, zoneId: Value := VStr("all"), reportType: Value := VNone, updatedTime: string := "")
      returns (r: Result<string, Error>)
      ensures updatedTime != "" && !MatchesUpdatedTime(updatedTime) ==> r == Failure(Raised(InvalidDate))
      ensures updatedTime == "" || MatchesUpdatedTime(updatedTime) ==>
        r == Success(Rendered("cities", updatedTime,
          if cities == [] then "" else CitiesData(reportType, zoneId, Elements("city_name", cities))))
    {
      assert RequestTypes[RequestCities - 1].1 == "cities";
      if cities != [] {
        var names := JoinElements("city_name", cities);
        var data := CitiesData(reportType, zoneId, names);
        if updatedTime != "" {
          if !MatchesUpdatedTime(updatedTime) {
            return Failure(Raised(InvalidDate));
          }
          return Send(RequestCities, data, updatedTime);
        }
        return Send(RequestCities, data, "");
      }
      r := Since(RequestCities, updatedTime);
    }

    /** `get_post_boxes`: its loop reads the loop variable before anything is
        assigned to it, so any non-empty list of locations fails. */
    function GetPostBoxes(locations: seq<(Value, Value)>): (r: Result<string, Error>)
      reads this
      ensures locations != [] ==> r == Failure(UnboundLocal("location"))
      ensures locations == [] ==> r == Success(Rendered("post_boxes", "", ""))
    {
      if locations != [] then Failure(UnboundLocal("location"))
      else Send(RequestPostBoxes, "", "")
    }

    function GetTariffCourier(): (r: Result<string, Error>)
      reads this
      ensures r == Success(Rendered("tariff_courier", "", ""))
    {
      Send(RequestTariffCourier, "", "")
    }

    function GetTariffPost(): (r: Result<string, Error>)
      reads this
      ensures r == Success(Rendered("tariff_post", "", ""))
    {
      Send(RequestTariffPost, "", "")
    }

    function GetProfile(): (r: Result<string, Error>)
      reads this
      ensures r == Success(Rendered("profile", "", ""))
    {
      Send(RequestProfile, "", "")
    }

    /** `get_registraion_request`: the e-mail in its own element when given. */
    function GetRegistrationRequest(email: Value): (r: Result<string, Error>)
      reads this
      ensures r == Success(Rendered("registration_request", "",
        if Truthy(email) then Element("registration_request_mail", Text(email)) else ""))
    {
      if Truthy(email) then Send(RequestRegistrationRequest, Element("registration_request_mail", Text(email)), "")
      else Send(RequestRegistrationRequest, "", "")
    }

    function GetCountries(): (r: Result<string, Error>)
      reads this
      ensures r == Success(Rendered("countries", "", ""))
    {
      Send(RequestCountries, "", "")
    }

    /** `cancel_shipments`: an empty list is refused; otherwise one `<num>`
        per id, in order, inside `<cancel_shipments>`. */
    method CancelShipments(shipments: seq<Value>) returns (r: Result<string, Error>)
      ensures shipments == [] ==> r == Failure(Raised(InvalidShipmentIdsSupplied))
      ensures shipments != [] ==>
        r == Success(Rendered("cancel_shipments", "", Element("cancel_shipments", Elements("num", shipments))))
    {
      if shipments == [] {
        return Failure(Raised(InvalidShipmentIdsSupplied));
      }
      var numbers := JoinElements("num", shipments);
      r := Send(RequestCancelShipments, Element("cancel_shipments", numbers), "");
    }

    /** `get_delivery_days`: the date must be given and match DATE_FORMAT; it
        is sent as it was given. */
    function GetDeliveryDays(date: string): (r: Result<string, Error>)
      reads this
      ensures date == "" || !MatchesDate(date) ==> r == Failure(Raised(InvalidDate))
      ensures date != "" && MatchesDate(date) ==> r == Success(Rendered("delivery_days", "", Element("delivery_days", date)))
    {
      if date == "" then Failure(Raised(InvalidDate))
      else if !MatchesDate(date) then Failure(Raised(InvalidDate))
      else Send(RequestDeliveryDays, Element("delivery_days", date), "")
    }

    /** `get_client_info`: all three identifiers are required. */
    function GetClientInfo(ein: Value, egn: Value, clientId: Value): (r: Result<string, Error>)
      reads this
      ensures !Truthy(ein) || !Truthy(egn) || !Truthy(clientId) ==> r == Failure(Raised(InvalidClientInfo))
      ensures Truthy(ein) && Truthy(egn) && Truthy(clientId) ==>
        r == Success(Rendered("client_info", "", ClientInfoData(ein, egn, clientId)))
    {
      if !Truthy(ein) || !Truthy(egn) || !Truthy(clientId) then Failure(Raised(InvalidClientInfo))
      else Send(RequestClientInfo, ClientInfoData(ein, egn, clientId), "")
    }

    function GetClients(): (r: Result<string, Error>)
      reads this
      ensures r == Success(Rendered("access_clients", "", ""))
    {
      Send(RequestAccessClients, "", "")
    }

    /** `check_cd_agreement`: the client name and the agreement id are both
        required. */
    function CheckCdAgreement(clientName: Value, agreementId: Value): (r: Result<string, Error>)
      reads this
      ensures !Truthy(clientName) || !Truthy(agreementId) ==> r == Failure(Raised(InvalidCashOnDelivery))
      ensures Truthy(clientName) && Truthy(agreementId) ==>
        r == Success(Rendered("check_cd_agreement", "", AgreementData(clientName, agreementId)))
    {
      if !Truthy(clientName) || !Truthy(agreementId) then Failure(Raised(InvalidCashOnDelivery))
      else Send(RequestCheckCdAgreement, AgreementData(clientName, agreementId), "")
    }

    /** `get_mediator_data`: the mediator id is required; a start date, when
        given, must match DATE_FORMAT and follows the id. */
    function GetMediatorData(mediatorId: Value, fromDate: string): (r: Result<string, Error>)
      reads this
      ensures !Truthy(mediatorId) ==> r == Failure(Raised(NoMediatorId))
      ensures Truthy(mediatorId) && fromDate != "" && !MatchesDate(fromDate) ==> r == Failure(Raised(InvalidDate))
      ensures Truthy(mediatorId) && (fromDate == "" || MatchesDate(fromDate)) ==>
        r == Success(Rendered("mediator_data", "", MediatorData(mediatorId, fromDate)))
    {
      if !Truthy(mediatorId) then Failure(Raised(NoMediatorId))
      else if fromDate != "" && !MatchesDate(fromDate) then Failure(Raised(InvalidDate))
      else Send(RequestMediatorData, MediatorData(mediatorId, fromDate), "")
    }
  }

  /** The template closes every slot with a tag. */
  lemma TemplateDelimited()
    ensures Envelope.Delimited(Template)
  {
  }

  /** Every field of a rendered request is read back out of its own slot, in
      template order: the credentials, the wire name of the id, the updated
      time or "", the data or "", and the client software label. */
  lemma RequestReadsBack(c: Client, requestType: Value, data: Value, updatedTime: Value, clientSoftware: Value)
    requires c.Request(requestType, data, updatedTime, clientSoftware).Success?
    requires '<' !in Text(c.username) && '<' !in Text(c.password) && '<' !in TextOrEmpty(updatedTime)
    requires '>' !in Text(clientSoftware)
    ensures Envelope.Parse(Template, c.Request(requestType, data, updatedTime, clientSoftware).value)
         == Some(Envelope.Fields(Text(c.username), Text(c.password), RequestTypes[requestType.i - 1].1,
                                 TextOrEmpty(updatedTime), TextOrEmpty(data), Text(clientSoftware)))
  {
    var name := RequestTypes[requestType.i - 1].1;
    PlainName(requestType.i - 1);
    TemplateDelimited();
    Envelope.ParseRender(Template, Envelope.Fields(Text(c.username), Text(c.password), name,
                                                   TextOrEmpty(updatedTime), TextOrEmpty(data), Text(clientSoftware)));
  }

  /** The envelope of a builder is read back slot by slot: the credentials,
      the wire name, the updated time and the data fragment as the builder
      made it, and the default label. */
  lemma RenderedReadsBack(c: Client, name: string, updatedTime: string, data: string)
    requires '<' !in Text(c.username) && '<' !in Text(c.password) && '<' !in name && '<' !in updatedTime
    ensures Envelope.Parse(Template, c.Rendered(name, updatedTime, data))
         == Some(Envelope.Fields(Text(c.username), Text(c.password), name, updatedTime, data, DefaultClientSoftware))
  {
    TemplateDelimited();
    Envelope.ParseRender(Template, Envelope.Fields(Text(c.username), Text(c.password), name, updatedTime, data,
                                                   DefaultClientSoftware));
  }

  /** A wire name passes the membership test of `request` but is not a key
      of the dictionary: `request("cities")` raises KeyError. */
  lemma NamePassedForId(c: Client, data: Value, updatedTime: Value, clientSoftware: Value)
    ensures c.Request(VStr("cities"), data, updatedTime, clientSoftware) == Failure(KeyError(VStr("cities")))
  {
    assert InRow(RequestTypes[2], VStr("cities"));
  }
}
