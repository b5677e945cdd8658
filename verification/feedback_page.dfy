/**
 * src/pages/FeedbackPage.tsx: the link back to the room and `submit`, which
 * checks the star rating and normalises the comment before sending.
 */
module FeedbackPage {
  import opened Wrappers
  import opened JsString
  import opened ApiTypes
  import QrCodesPage

  const InitialStars: int := 5
  const StarsOutOfRangeText: string := "Số sao phải từ 1 đến 5"
  const SubmitFailedText: string := "Gửi đánh giá thất bại"

  /** `submitFeedback(ticketId, body)`: the ticket the feedback is for, and the body's stars and comment. */
  datatype FeedbackRequest = FeedbackRequest(ticketId: string, stars: int, comment: Option<string>)

  /** `backLink`: the room page when both slugs are present, else the home page. */
  function BackLink(siteSlug: Option<string>, roomSlug: Option<string>, enc: string -> string): (r: string)
    ensures Truthy(siteSlug) && Truthy(roomSlug) ==> r == QrCodesPage.EncodedRoomPath(siteSlug.value, roomSlug.value, enc)
    ensures !(Truthy(siteSlug) && Truthy(roomSlug)) ==> r == "/"
  {
    if Truthy(siteSlug) && Truthy(roomSlug) then "/s/" + enc(siteSlug.value) + "/r/" + enc(roomSlug.value) else "/"
  }

  /** The back link leads to the same page as the room's QR code, without the origin. */
  lemma BackLinkMatchesQrCode(origin: string, siteSlug: string, roomSlug: string, enc: string -> string)
    requires siteSlug != "" && roomSlug != ""
    ensures origin + BackLink(Some(siteSlug), Some(roomSlug), enc) == QrCodesPage.BuildRoomUrl(origin, siteSlug, roomSlug, enc)
  {
  }

  /** `stars < 1 || stars > 5` rejects. */
  predicate ValidStars(stars: int) {
    !(stars < 1 || stars > 5)
  }

  /** The form starts at 5 stars, which is accepted. */
  lemma InitialStarsValid()
    ensures ValidStars(InitialStars)
    ensures forall s :: ValidStars(s) <==> s in {1, 2, 3, 4, 5}
  {
  }

  /** `comment.trim() ? comment.trim() : null`. */
  function NormalizeComment(comment: string): (r: Option<string>)
    ensures r.None? <==> forall i :: 0 <= i < |comment| ==> IsJsWhitespace(comment[i])
    ensures r.Some? ==> r.value == Trim(comment) && r.value != ""
  {
    var t := Trim(comment);
    if t != "" then Some(t) else None
  }

  /** Normalising a comment that was already sent sends it unchanged. */
  lemma NormalizeCommentStable(comment: string)
    ensures var r := NormalizeComment(comment); r.Some? ==> NormalizeComment(r.value) == r
  {
    TrimIdempotent(comment);
  }

  /** The feedback form's state. */
  class FeedbackForm {
    var stars: int
    var comment: string
    var loading: bool
    var done: bool
    var error: Option<string>

    constructor ()
      ensures stars == InitialStars && comment == "" && !loading && !done && error == None
    {
      stars := InitialStars;
      comment := "";
      loading := false;
      done := false;
      error := None;
    }

    /**
     * `submit()` for `ticketId`, where `api` is how `submitFeedback` settles.
     * `sent` is the request that reaches the API, if any.
     */
    method Submit(ticketId: Option<string>, api: Outcome<Thrown>) returns (sent: Option<FeedbackRequest>)
      modifies this
      ensures stars == old(stars) && comment == old(comment)
      ensures !Truthy(ticketId) ==>
        sent == None && loading == old(loading) && done == old(done) && error == old(error)
      ensures Truthy(ticketId) && !ValidStars(stars) ==>
        sent == None && !loading && done == old(done) && error == Some(StarsOutOfRangeText)
      ensures Truthy(ticketId) && ValidStars(stars) ==>
        && sent == Some(FeedbackRequest(ticketId.value, stars, NormalizeComment(comment)))
        && !loading
        && done == (api.Pass? || old(done))
        && error == (if api.Pass? then None else Some(ErrorText(api.error, SubmitFailedText)))
    {
      sent := None;
      if !Truthy(ticketId) {
        return;
      }
      loading := true;
      error := None;
      if stars < 1 || stars > 5 {
        error := Some(ErrorText(ErrorInstance(StarsOutOfRangeText), SubmitFailedText));
      } else {
        sent := Some(FeedbackRequest(ticketId.value, stars, NormalizeComment(comment)));
        if api.Pass? {
          done := true;
        } else {
          error := Some(ErrorText(api.error, SubmitFailedText));
        }
      }
      loading := false;
    }
  }
}
