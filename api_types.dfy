/** The records exchanged with the feature-request REST API. The generated
    API client itself is not part of this model: each call is an oracle
    whose answer (a value or a rejection) is handed to the caller. */
module ApiTypes {
  import opened JsValues

  /** `CreateFeatureRequestDto`: the six text fields of a new record. */
  datatype CreateDto = CreateDto(
    customer: string,
    when: string,
    want: string,
    how: string,
    soThat: string,
    featureRequests: string)

  /** `UpdateFeatureRequestDto`: the five editable text fields. */
  datatype UpdateDto = UpdateDto(
    when: string,
    want: string,
    how: string,
    soThat: string,
    featureRequests: string)

  /** `FeatureRequestResponseDto`: a stored record as the server returns it.
      The text fields may be missing (`None`). */
  datatype FeatureRequest = FeatureRequest(
    id: int,
    customer: Option<string>,
    when: Option<string>,
    want: Option<string>,
    how: Option<string>,
    soThat: Option<string>,
    featureRequests: Option<string>)

  /** The rejection an API call fails with. */
  datatype ApiError = ApiError(message: string)

  type ApiResult<T> = Result<T, ApiError>

  /** `fr.id.toString() === id`. */
  predicate HasId(fr: FeatureRequest, id: string) {
    NumberText(fr.id) == id
  }

  /** `fr.id.toString()` matches `id` only for the record whose id has that
      decimal text: two records both matching one string have equal ids. */
  lemma HasIdDeterminesId(a: FeatureRequest, b: FeatureRequest, id: string)
    requires HasId(a, id) && HasId(b, id)
    ensures a.id == b.id
  {
    NumberTextInjective(a.id, b.id);
  }
}
