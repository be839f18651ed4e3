/**
 * A sub-country region (a state, province or special zone) and the name of
 * its closure template file.
 */
module CountryRegion {
  import opened Text

  datatype Region = Region(countryId: int, regionCode: string, regionName: string)

  /** `get_template_filename`: "<country>_<region>.json", both codes
      lower-cased, so the name holds no upper-case letter and ends in
      ".json". */
  function TemplateFilename(region: Region, countryCode: string): (r: string)
    ensures Lower(r) == r
    ensures |r| == |countryCode| + |region.regionCode| + 6 && r[|r| - 5..] == ".json"
  {
    var c, g := Lower(countryCode), Lower(region.regionCode);
    LowerIdempotent(countryCode);
    LowerIdempotent(region.regionCode);
    LowerAppend(c + "_" + g, ".json");
    LowerAppend(c + "_", g);
    LowerAppend(c, "_");
    assert Lower("_") == "_" && Lower(".json") == ".json";
    c + "_" + g + ".json"
  }

  /** The case in which either code is written makes no difference. */
  lemma TemplateFilenameIgnoresCase(region: Region, countryCode: string)
    ensures TemplateFilename(region, Upper(countryCode)) == TemplateFilename(region, countryCode)
    ensures TemplateFilename(region, Lower(countryCode)) == TemplateFilename(region, countryCode)
    ensures TemplateFilename(region.(regionCode := Upper(region.regionCode)), countryCode) ==
      TemplateFilename(region, countryCode)
    ensures TemplateFilename(region.(regionCode := Lower(region.regionCode)), countryCode) ==
      TemplateFilename(region, countryCode)
  {
    LowerIdempotent(countryCode);
    LowerIdempotent(region.regionCode);
  }
}
