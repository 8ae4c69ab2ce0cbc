/**
 * The `DataPrivacy` resource: a v2 deletion request for one person, named
 * by email, phone number or person id.
 */
module DataPrivacy {
  import opened Wrappers
  import opened PyValues
  import opened Text
  import opened Http
  import opened Exceptions
  import opened ApiHelper
  import opened Routes

  const DATA_PRIVACY := "data-privacy"
  const DELETION_REQUEST := "deletion-request"
  const ALLOWED_ID_TYPES := ["email", "phone_number", "person_id"]

  /** The message of the error an unknown id type raises, with the allowed types as Python prints the list. */
  const INVALID_ID_TYPE_MESSAGE := "Invalid id_type provided. Valid types are: ['email', 'phone_number', 'person_id']"

  /** The path of the deletion endpoint. */
  function DeletionPath(): (path: string)
    ensures path == DATA_PRIVACY + "/" + DELETION_REQUEST
    ensures Route(V2, path) == Some(DeletionRequest)
  {
    var path := DATA_PRIVACY + "/" + DELETION_REQUEST;
    assert '/' !in DATA_PRIVACY;
    assert '/' !in DELETION_REQUEST;
    SplitAfterPiece(DATA_PRIVACY, '/', DELETION_REQUEST);
    SplitNoSeparator(DELETION_REQUEST, '/');
    RouteDeletionRequest(path);
    path
  }

  /**
   * `request_profile_deletion`: an id type outside the allowed three raises
   * `KlaviyoException` before anything is sent; otherwise the one body field
   * is the id type itself, mapped to the identifier.
   */
  function RequestProfileDeletion(identifier: Value, idType: string := "email"): (r: Result<ApiCall, Failure>)
    ensures r.Failure? <==> idType !in ALLOWED_ID_TYPES
    ensures r.Failure? ==> r.error == KlaviyoException(INVALID_ID_TYPE_MESSAGE)
    ensures r.Success? ==> r.value.api == V2 && r.value.verb == Post
    ensures r.Success? ==> r.value.path == DATA_PRIVACY + "/" + DELETION_REQUEST
    ensures r.Success? ==> r.value.params == map[idType := identifier]
    ensures r.Success? ==> Target(r.value) == Some(DeletionRequest)
  {
    if idType !in ALLOWED_ID_TYPES then
      Failure(KlaviyoException(INVALID_ID_TYPE_MESSAGE))
    else
      Success(ApiCall(V2, Post, DeletionPath(), map[idType := identifier]))
  }

  /**
   * The error an unknown id type raises is caught by `except
   * KlaviyoException` and not by `except KlaviyoAPIException`, although the
   * method's documentation names the latter.
   */
  lemma InvalidIdTypeIsNotAnApiError(identifier: Value, idType: string)
    requires idType !in ALLOWED_ID_TYPES
    ensures RequestProfileDeletion(identifier, idType).Failure?
    ensures RequestProfileDeletion(identifier, idType).error.IsInstance(Klaviyo)
    ensures !RequestProfileDeletion(identifier, idType).error.IsInstance(Api)
  {
    HierarchyIsDisjoint(RequestProfileDeletion(identifier, idType).error);
  }
}
