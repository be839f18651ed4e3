/**
 * Country-specific closure data: a JSON object of extra totals stored with
 * a closure, read and written as a key/value map, and initialised from a
 * template file chosen by state, then country, then a default.
 */
module ClosureCountry {
  import opened Wrappers
  import opened Text
  import CountryRegion

  /** A JSON value as `json.loads` returns it. */
  datatype Json =
    | JNull | JBool(b: bool) | JInt(i: int) | JFloat(r: real) | JStr(s: string)
    | JArray(items: seq<Json>) | JObject(fields: map<string, Json>)

  type CountryData = map<string, Json>

  /** `data.get(field_name, default)`. */
  function GetOr(data: CountryData, fieldName: string, default: Json): (v: Json)
    ensures fieldName in data ==> v == data[fieldName]
    ensures fieldName !in data ==> v == default
  {
    if fieldName in data then data[fieldName] else default
  }

  /** After a field is set, reading it gives the value set and every other field reads as before. */
  lemma SetThenGet(data: CountryData, fieldName: string, value: Json, other: string, default: Json)
    ensures GetOr(data[fieldName := value], fieldName, default) == value
    ensures other != fieldName ==> GetOr(data[fieldName := value], other, default) == GetOr(data, other, default)
  {
  }

  /** `data.update(kwargs)`: the keyword values override, every other key is kept. */
  lemma UpdateOverrides(data: CountryData, kwargs: CountryData)
    ensures (data + kwargs).Keys == data.Keys + kwargs.Keys
    ensures forall k :: k in kwargs ==> (data + kwargs)[k] == kwargs[k]
    ensures forall k :: k in data && k !in kwargs ==> (data + kwargs)[k] == data[k]
  {
  }

  /** `{**template, **existing}`: existing keys win, the template fills the rest. */
  function Merge(template: CountryData, existing: CountryData): (m: CountryData)
    ensures m.Keys == template.Keys + existing.Keys
    ensures forall k :: k in existing ==> m[k] == existing[k]
    ensures forall k :: k in template && k !in existing ==> m[k] == template[k]
  {
    template + existing
  }

  /** The nine totals `set_turkey_data` writes, with the amounts as floats:
      exactly nine keys, the five counts as integers and the four amounts as
      floats. */
  function TurkeyData(electronicInvoiceCount: int, electronicInvoiceAmount: real,
                      canceledElectronicInvoiceCount: int, electronicWaybillCount: int,
                      electronicWaybillAmount: real, diplomaticInvoiceCount: int,
                      diplomaticInvoiceAmount: real, touristTaxFreeCount: int,
                      touristTaxFreeAmount: real): (r: CountryData)
    ensures |r.Keys| == 9
    ensures forall k :: k in r ==> r[k].JInt? || r[k].JFloat?
  {
    TurkeyMapShape(electronicInvoiceCount, electronicInvoiceAmount, canceledElectronicInvoiceCount,
                   electronicWaybillCount, electronicWaybillAmount, diplomaticInvoiceCount,
                   diplomaticInvoiceAmount, touristTaxFreeCount, touristTaxFreeAmount);
    TurkeyMap(electronicInvoiceCount, electronicInvoiceAmount, canceledElectronicInvoiceCount,
              electronicWaybillCount, electronicWaybillAmount, diplomaticInvoiceCount,
              diplomaticInvoiceAmount, touristTaxFreeCount, touristTaxFreeAmount)
  }

  /** The map `set_turkey_data` builds, key by key. */
  function TurkeyMap(a: int, b: real, c: int, d: int, e: real, f: int, g: real, h: int, i: real): CountryData
  {
    map[
      "electronic_invoice_count" := JInt(a),
      "electronic_invoice_amount" := JFloat(b),
      "canceled_electronic_invoice_count" := JInt(c),
      "electronic_waybill_count" := JInt(d),
      "electronic_waybill_amount" := JFloat(e),
      "diplomatic_invoice_count" := JInt(f),
      "diplomatic_invoice_amount" := JFloat(g),
      "tourist_tax_free_count" := JInt(h),
      "tourist_tax_free_amount" := JFloat(i)]
  }

  /** The nine keys are distinct and every value is a number. */
  lemma TurkeyMapShape(a: int, b: real, c: int, d: int, e: real, f: int, g: real, h: int, i: real)
    ensures |TurkeyMap(a, b, c, d, e, f, g, h, i).Keys| == 9
    ensures forall k :: k in TurkeyMap(a, b, c, d, e, f, g, h, i) ==>
      (TurkeyMap(a, b, c, d, e, f, g, h, i)[k].JInt? || TurkeyMap(a, b, c, d, e, f, g, h, i)[k].JFloat?)
  {
    var keys := ["electronic_invoice_count", "electronic_invoice_amount", "canceled_electronic_invoice_count",
                 "electronic_waybill_count", "electronic_waybill_amount", "diplomatic_invoice_count",
                 "diplomatic_invoice_amount", "tourist_tax_free_count", "tourist_tax_free_amount"];
    var m := TurkeyMap(a, b, c, d, e, f, g, h, i);
    assert m.Keys == {keys[0], keys[1], keys[2], keys[3], keys[4], keys[5], keys[6], keys[7], keys[8]};
    assert keys[0] != keys[1] && keys[0] != keys[2] && keys[0] != keys[3] && keys[0] != keys[4];
  }

  /** The closure template files: a name present when the file exists, with
      its parsed object, or None when it cannot be read or parsed. */
  type TemplateFiles = map<string, Option<CountryData>>

  /** The state template's file name, "<cc>_<sc>.json". */
  function StateTemplateName(countryCode: string, stateCode: string): string
  {
    Lower(countryCode) + "_" + Lower(stateCode) + ".json"
  }

  function CountryTemplateName(countryCode: string): string
  {
    Lower(countryCode) + ".json"
  }

  const DefaultTemplateName: string := "default.json"

  /** `_get_template_path`: the state file when a state code is given and the
      file exists, then the country file, then the default file, else none. */
  function TemplatePath(countryCode: string, stateCode: Option<string>, files: TemplateFiles): (r: Option<string>)
    ensures r.Some? ==> r.value in files
    ensures r.None? <==>
      && !(stateCode.Some? && stateCode.value != "" && StateTemplateName(countryCode, stateCode.value) in files)
      && CountryTemplateName(countryCode) !in files && DefaultTemplateName !in files
  {
    if stateCode.Some? && stateCode.value != "" && StateTemplateName(countryCode, stateCode.value) in files then
      Some(StateTemplateName(countryCode, stateCode.value))
    else if CountryTemplateName(countryCode) in files then Some(CountryTemplateName(countryCode))
    else if DefaultTemplateName in files then Some(DefaultTemplateName)
    else None
  }

  /** A more specific template always wins over a less specific one. */
  lemma TemplatePathPriority(countryCode: string, stateCode: Option<string>, files: TemplateFiles)
    ensures stateCode.Some? && stateCode.value != "" && StateTemplateName(countryCode, stateCode.value) in files ==>
      TemplatePath(countryCode, stateCode, files) == Some(StateTemplateName(countryCode, stateCode.value))
    ensures (stateCode.None? || stateCode.value == "") && CountryTemplateName(countryCode) in files ==>
      TemplatePath(countryCode, stateCode, files) == Some(CountryTemplateName(countryCode))
    ensures TemplatePath(countryCode, stateCode, files) == Some(DefaultTemplateName) ==>
      CountryTemplateName(countryCode) !in files || CountryTemplateName(countryCode) == DefaultTemplateName
  {
    if stateCode.Some? && stateCode.value != "" {
      var name := StateTemplateName(countryCode, stateCode.value);
      assert name[|Lower(countryCode)|] == '_';
      assert '_' !in DefaultTemplateName;
    }
  }

  /** The file a region names is the one the template lookup tries first for that region's state code. */
  lemma RegionFileIsStateTemplate(region: CountryRegion.Region, countryCode: string)
    ensures CountryRegion.TemplateFilename(region, countryCode) == StateTemplateName(countryCode, region.regionCode)
  {
  }

  /** The case of the country code does not change which template is used. */
  lemma TemplatePathIgnoresCase(countryCode: string, stateCode: Option<string>, files: TemplateFiles)
    ensures TemplatePath(Upper(countryCode), stateCode, files) == TemplatePath(countryCode, stateCode, files)
  {
    LowerIdempotent(countryCode);
  }

  /** `load_template`: the template's object, or {} when there is no file or it cannot be read. */
  function LoadTemplate(countryCode: string, stateCode: Option<string>, files: TemplateFiles): (t: CountryData)
    ensures TemplatePath(countryCode, stateCode, files).None? ==> t == map[]
  {
    match TemplatePath(countryCode, stateCode, files)
    case None => map[]
    case Some(path) => files[path].GetOr(map[])
  }

  /** A closure's country-specific row. `countryData` is what `country_data_json`
      decodes to, None when the text is empty or not valid JSON. */
  class ClosureCountrySpecific {
    var closureId: int
    var countryCode: string
    var countryData: Option<CountryData>

    /** A new row before any data is set. */
    constructor (fkClosureId: int)
      ensures closureId == fkClosureId && countryCode == "" && countryData == None
    {
      closureId, countryCode, countryData := fkClosureId, "", None;
    }

    /** `get_country_data`: {} for empty or invalid JSON. */
    function GetCountryData(): (d: CountryData)
      reads this
      ensures countryData.None? ==> d == map[]
    {
      countryData.GetOr(map[])
    }

    /** `get_field`: the stored field's value, else the default; no stored
        data reads as {}. */
    function GetField(fieldName: string, default: Json): (v: Json)
      reads this
      ensures fieldName in GetCountryData() ==> v == GetCountryData()[fieldName]
      ensures fieldName !in GetCountryData() ==> v == default
      ensures countryData.None? ==> v == default
    {
      GetOr(GetCountryData(), fieldName, default)
    }

    /** `set_country_data`: anything but an object is refused with nothing stored. */
    method SetCountryData(data: Json) returns (r: Result<(), string>)
      modifies this`countryData
      ensures data.JObject? <==> r.Success?
      ensures data.JObject? ==> countryData == Some(data.fields)
      ensures !data.JObject? ==> countryData == old(countryData)
    {
      if !data.JObject? {
        return Failure("Country data must be a dictionary");
      }
      countryData := Some(data.fields);
      r := Success(());
    }

    /** `update_country_data(**kwargs)`. */
    method UpdateCountryData(kwargs: CountryData)
      modifies this`countryData
      ensures countryData == Some(old(GetCountryData()) + kwargs)
    {
      var data := GetCountryData();
      var _ := SetCountryData(JObject(data + kwargs));
    }

    /** `set_field`. */
    method SetField(fieldName: string, value: Json)
      modifies this`countryData
      ensures countryData == Some(old(GetCountryData())[fieldName := value])
      ensures GetField(fieldName, JNull) == value
    {
      var data := GetCountryData();
      var _ := SetCountryData(JObject(data[fieldName := value]));
    }

    /** `get_turkey_data`: {} unless the country is TR. */
    function GetTurkeyData(): (d: CountryData)
      reads this
      ensures countryCode != "TR" ==> d == map[]
    {
      if countryCode != "TR" then map[] else GetCountryData()
    }

    /** `set_turkey_data`: the row becomes TR and holds exactly the nine totals. */
    method SetTurkeyData(electronicInvoiceCount: int, electronicInvoiceAmount: real,
                         canceledElectronicInvoiceCount: int, electronicWaybillCount: int,
                         electronicWaybillAmount: real, diplomaticInvoiceCount: int,
                         diplomaticInvoiceAmount: real, touristTaxFreeCount: int,
                         touristTaxFreeAmount: real)
      modifies this`countryCode, this`countryData
      ensures countryCode == "TR"
      ensures GetTurkeyData() == TurkeyData(electronicInvoiceCount, electronicInvoiceAmount,
        canceledElectronicInvoiceCount, electronicWaybillCount, electronicWaybillAmount,
        diplomaticInvoiceCount, diplomaticInvoiceAmount, touristTaxFreeCount, touristTaxFreeAmount)
    {
      if countryCode != "TR" {
        countryCode := "TR";
      }
      var data := TurkeyData(electronicInvoiceCount, electronicInvoiceAmount,
        canceledElectronicInvoiceCount, electronicWaybillCount, electronicWaybillAmount,
        diplomaticInvoiceCount, diplomaticInvoiceAmount, touristTaxFreeCount, touristTaxFreeAmount);
      var _ := SetCountryData(JObject(data));
    }

    /** `initialize_from_template`: nothing changes without a non-empty
        template; merging keeps existing keys over the template's, replacing
        stores exactly the template. */
    method InitializeFromTemplate(stateCode: Option<string>, mergeWithExisting: bool, files: TemplateFiles)
      returns (ok: bool)
      modifies this`countryData
      ensures var template := LoadTemplate(countryCode, stateCode, files);
        && (ok <==> template != map[])
        && (!ok ==> countryData == old(countryData))
        && (ok && mergeWithExisting ==> countryData == Some(Merge(template, old(GetCountryData()))))
        && (ok && !mergeWithExisting ==> countryData == Some(template))
    {
      var template := LoadTemplate(countryCode, stateCode, files);
      if template == map[] {
        return false;
      }
      if mergeWithExisting {
        var existing := GetCountryData();
        var _ := SetCountryData(JObject(Merge(template, existing)));
      } else {
        var _ := SetCountryData(JObject(template));
      }
      ok := true;
    }
  }

  /** `create_for_turkey`: a TR row holding the nine totals. */
  method CreateForTurkey(fkClosureId: int, electronicInvoiceCount: int, electronicInvoiceAmount: real,
                         canceledElectronicInvoiceCount: int, electronicWaybillCount: int,
                         electronicWaybillAmount: real, diplomaticInvoiceCount: int,
                         diplomaticInvoiceAmount: real, touristTaxFreeCount: int,
                         touristTaxFreeAmount: real) returns (row: ClosureCountrySpecific)
    ensures fresh(row) && row.closureId == fkClosureId && row.countryCode == "TR"
    ensures row.GetTurkeyData() == TurkeyData(electronicInvoiceCount, electronicInvoiceAmount,
      canceledElectronicInvoiceCount, electronicWaybillCount, electronicWaybillAmount,
      diplomaticInvoiceCount, diplomaticInvoiceAmount, touristTaxFreeCount, touristTaxFreeAmount)
  {
    row := new ClosureCountrySpecific(fkClosureId);
    row.countryCode := "TR";
    row.SetTurkeyData(electronicInvoiceCount, electronicInvoiceAmount,
      canceledElectronicInvoiceCount, electronicWaybillCount, electronicWaybillAmount,
      diplomaticInvoiceCount, diplomaticInvoiceAmount, touristTaxFreeCount, touristTaxFreeAmount);
  }

  /** `create_from_template`: the code is stored upper-cased and the data is the template, if any. */
  method CreateFromTemplate(fkClosureId: int, countryCode: string, stateCode: Option<string>, files: TemplateFiles)
    returns (row: ClosureCountrySpecific)
    ensures fresh(row) && row.closureId == fkClosureId && row.countryCode == Upper(countryCode)
    ensures var template := LoadTemplate(countryCode, stateCode, files);
      row.countryData == (if template == map[] then None else Some(template))
  {
    row := new ClosureCountrySpecific(fkClosureId);
    row.countryCode := Upper(countryCode);
    var _ := row.InitializeFromTemplate(stateCode, false, files);
    LoadTemplateIgnoresCase(countryCode, stateCode, files);
  }

  lemma LoadTemplateIgnoresCase(countryCode: string, stateCode: Option<string>, files: TemplateFiles)
    ensures LoadTemplate(Upper(countryCode), stateCode, files) == LoadTemplate(countryCode, stateCode, files)
  {
    TemplatePathIgnoresCase(countryCode, stateCode, files);
  }
}
