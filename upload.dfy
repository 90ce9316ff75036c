/**
 * The upload routes of backend/app/api/routes/upload.py: validate, save, then describe the
 * stored dataset. The upload directory is a class whose list of saved files grows with each
 * successful save. The fresh file id, the clock, the outcome of the disk write and of the
 * metadata read, and the iteration order of the allowed-extension sets are parameters.
 */
module Upload {
  import opened Wrappers
  import opened Types
  import Validation

  /** The message of the 400 an unknown climate `type` draws. */
  const BadClimateType := "Type must be either 'temperature' or 'precipitation'"

  /** One file written by `save_upload_file`: its subdirectory, its id and the uploaded name. */
  datatype SavedFile = SavedFile(subdirectory: string, id: string, filename: Option<string>)

  /** `file.filename or fallback` */
  function FilenameOr(filename: Option<string>, fallback: string): (r: string)
    ensures Truthy(filename) ==> r == filename.value
    ensures !Truthy(filename) ==> r == fallback
  {
    if Truthy(filename) then filename.value else fallback
  }

  /**
   * The `unknown.*` fallbacks cannot be reached: a name that passes validation is present and
   * non-empty, so the record carries the upload's own name.
   */
  lemma FallbackUnreachable(filename: Option<string>, allowed: set<string>, fallback: string)
    requires "" !in allowed && Validation.Extension(filename) in allowed
    ensures filename.Some? && FilenameOr(filename, fallback) == filename.value
  {
    Validation.AcceptedNameIsPresent(filename, allowed);
  }

  /** The value of a climate-type enum member. */
  function ClimateTypeValue(t: ClimateDataType): string
  {
    match t
    case TemperatureData => "temperature"
    case PrecipitationData => "precipitation"
  }

  /** `ClimateDataType(type)`: the member whose value is `s`, or the `ValueError` case. */
  function ParseClimateType(s: string): (r: Option<ClimateDataType>)
    ensures r.Some? <==> s == "temperature" || s == "precipitation"
    ensures r.Some? ==> ClimateTypeValue(r.value) == s
  {
    if s == "temperature" then Some(TemperatureData)
    else if s == "precipitation" then Some(PrecipitationData)
    else None
  }

  /** Parsing a member's value gives the member back. */
  lemma ParseClimateTypeValue(t: ClimateDataType)
    ensures ParseClimateType(ClimateTypeValue(t)) == Some(t)
  {
  }

  /** `uploads/`: the files saved so far, in the order they were written. */
  class UploadDirectory {
    var saved: seq<SavedFile>

    constructor()
      ensures saved == []
    {
      saved := [];
    }

    /**
     * `save_upload_file(file, subdirectory)`: the file is written under the fresh id, or the
     * write fails and the error is re-raised as a 500.
     */
    method SaveUploadFile(filename: Option<string>, subdirectory: string, freshId: string, writeError: Option<string>)
      returns (r: Result<string, HttpError>)
      modifies this
      ensures writeError.Some? ==>
                r == Failure(HttpError(500, "Error saving file: " + writeError.value)) && saved == old(saved)
      ensures writeError.None? ==>
                r == Success(freshId) && saved == old(saved) + [SavedFile(subdirectory, freshId, filename)]
    {
      if writeError.Some? {
        return Failure(HttpError(500, "Error saving file: " + writeError.value));
      }
      saved := saved + [SavedFile(subdirectory, freshId, filename)];
      r := Success(freshId);
    }

    /**
     * `upload_urban_expansion`: an invalid name is refused before anything is saved; after the
     * save, a failing metadata read is a 400 but the file stays. The record carries the saved
     * id and passes `year` and `region` through.
     */
    method UploadUrbanExpansion(
      filename: Option<string>, year: Option<int>, region: Option<string>, shown: seq<string>,
      freshId: string, writeError: Option<string>, metadataError: Option<string>, now: string)
      returns (r: Result<UrbanExpansionData, HttpError>)
      requires Validation.SetOrder(shown, Validation.AllowedTiffExtensions)
      modifies this
      ensures !Validation.ValidateTiffFile(filename, shown).0 ==>
                r == Failure(HttpError(400, Validation.ValidateTiffFile(filename, shown).1)) && saved == old(saved)
      ensures Validation.ValidateTiffFile(filename, shown).0 && writeError.Some? ==>
                r == Failure(HttpError(500, "Error saving file: " + writeError.value)) && saved == old(saved)
      ensures Validation.ValidateTiffFile(filename, shown).0 && writeError.None? ==>
                saved == old(saved) + [SavedFile("urban", freshId, filename)]
      ensures Validation.ValidateTiffFile(filename, shown).0 && writeError.None? && metadataError.Some? ==>
                r == Failure(HttpError(400, "Error reading TIFF file: " + metadataError.value))
      ensures Validation.ValidateTiffFile(filename, shown).0 && writeError.None? && metadataError.None? ==>
                filename.Some? && r == Success(UrbanExpansionData(freshId, filename.value, now, year, region))
      ensures r.Success? ==>
                && filename.Some?
                && r.value == UrbanExpansionData(freshId, filename.value, now, year, region)
    {
      var valid := Validation.ValidateTiffFile(filename, shown);
      if !valid.0 {
        return Failure(HttpError(400, valid.1));
      }
      var id := SaveUploadFile(filename, "urban", freshId, writeError);
      if id.Failure? {
        return Failure(id.error);
      }
      if metadataError.Some? {
        return Failure(HttpError(400, "Error reading TIFF file: " + metadataError.value));
      }
      FallbackUnreachable(filename, Validation.AllowedTiffExtensions, "unknown.tiff");
      r := Success(UrbanExpansionData(id.value, FilenameOr(filename, "unknown.tiff"), now, year, region));
    }

    /**
     * `upload_climate_data`: the `type` is checked first, then the name; both refusals come
     * before anything is saved.
     */
    method UploadClimateData(
      filename: Option<string>, climateType: string, year: Option<int>, shown: seq<string>,
      freshId: string, writeError: Option<string>, now: string)
      returns (r: Result<ClimateData, HttpError>)
      requires Validation.SetOrder(shown, Validation.AllowedNetcdfExtensions)
      modifies this
      ensures ParseClimateType(climateType).None? ==>
                r == Failure(HttpError(400, BadClimateType)) && saved == old(saved)
      ensures ParseClimateType(climateType).Some? && !Validation.ValidateNetcdfFile(filename, shown).0 ==>
                r == Failure(HttpError(400, Validation.ValidateNetcdfFile(filename, shown).1)) && saved == old(saved)
      ensures ParseClimateType(climateType).Some? && Validation.ValidateNetcdfFile(filename, shown).0 ==>
                && (writeError.Some? ==>
                      r == Failure(HttpError(500, "Error saving file: " + writeError.value)) && saved == old(saved))
                && (writeError.None? ==>
                      && saved == old(saved) + [SavedFile("climate", freshId, filename)]
                      && filename.Some?
                      && r == Success(ClimateData(freshId, filename.value, ParseClimateType(climateType).value, now, year)))
    {
      var parsed := ParseClimateType(climateType);
      if parsed.None? {
        return Failure(HttpError(400, BadClimateType));
      }
      var valid := Validation.ValidateNetcdfFile(filename, shown);
      if !valid.0 {
        return Failure(HttpError(400, valid.1));
      }
      var id := SaveUploadFile(filename, "climate", freshId, writeError);
      if id.Failure? {
        return Failure(id.error);
      }
      FallbackUnreachable(filename, Validation.AllowedNetcdfExtensions, "unknown.nc");
      r := Success(ClimateData(id.value, FilenameOr(filename, "unknown.nc"), parsed.value, now, year));
    }

    /** `upload_historical_yields`: as the climate upload without a type; the year list is empty. */
    method UploadHistoricalYields(
      filename: Option<string>, shown: seq<string>, freshId: string, writeError: Option<string>, now: string)
      returns (r: Result<HistoricalYieldData, HttpError>)
      requires Validation.SetOrder(shown, Validation.AllowedNetcdfExtensions)
      modifies this
      ensures !Validation.ValidateNetcdfFile(filename, shown).0 ==>
                r == Failure(HttpError(400, Validation.ValidateNetcdfFile(filename, shown).1)) && saved == old(saved)
      ensures Validation.ValidateNetcdfFile(filename, shown).0 && writeError.Some? ==>
                r == Failure(HttpError(500, "Error saving file: " + writeError.value)) && saved == old(saved)
      ensures Validation.ValidateNetcdfFile(filename, shown).0 && writeError.None? ==>
                && saved == old(saved) + [SavedFile("historical-yields", freshId, filename)]
                && filename.Some?
                && r == Success(HistoricalYieldData(freshId, filename.value, now, []))
    {
      var valid := Validation.ValidateNetcdfFile(filename, shown);
      if !valid.0 {
        return Failure(HttpError(400, valid.1));
      }
      var id := SaveUploadFile(filename, "historical-yields", freshId, writeError);
      if id.Failure? {
        return Failure(id.error);
      }
      FallbackUnreachable(filename, Validation.AllowedNetcdfExtensions, "unknown.nc");
      r := Success(HistoricalYieldData(id.value, FilenameOr(filename, "unknown.nc"), now, []));
    }
  }
}
