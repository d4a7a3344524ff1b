/** The account activation page (app/account/activate/success/page.tsx):
    read `token` and `email` from the URL, post them, and show success or
    failure; its button sends the user to the login page. */
module AccountActivation {
  import opened Wrappers
  import opened Text
  import opened Api

  /** `window.location.search || window.location.hash.split('?')[1] || ''`:
      a non-empty search wins; otherwise the query comes from the hash, holds no
      '?', and is empty when the hash has no '?'. */
  function QueryText(search: string, hash: string): (q: string)
    ensures search != "" ==> q == search
    ensures search == "" ==> '?' !in q
    ensures search == "" && '?' !in hash ==> q == ""
  {
    if search != "" then search
    else
      var parts := Split(hash, '?');
      SplitOfSeparatorFree(hash, '?');
      if |parts| > 1 then parts[1] else ""
  }

  /** Without a search part, the query is the text of the hash between its
      first '?' and the next '?' (or the end). */
  lemma QueryFromHash(before: string, query: string, after: string)
    requires '?' !in before && '?' !in query
    requires after == [] || after[0] == '?'
    ensures QueryText("", before + ['?'] + query + after) == query
  {
    var hash := before + ['?'] + query + after;
    assert hash == before + ['?'] + (query + after);
    SplitPrefix(before, query + after, '?');
    if after == [] {
      assert query + after == query;
      SplitOfSeparatorFree(query, '?');
    } else {
      assert query + after == query + ['?'] + after[1..];
      SplitPrefix(query, after[1..], '?');
    }
  }

  datatype Status = Success | Error

  /** `params.get(key)` of `new URLSearchParams(query)`, given as a function. */
  type Lookup = (string, string) -> Option<string>

  /** `!token || !email` fails: a missing or empty parameter. */
  predicate Present(p: Option<string>) {
    p.Some? && p.value != ""
  }

  class ActivationPage {
    var isLoading: bool
    var activationStatus: Option<Status>
    /** A redirect scheduled by the button, waiting for its timer. */
    var redirectPending: bool
    /** Where `window.location.href` was sent. */
    var location: Option<string>

    constructor ()
      ensures isLoading && activationStatus == None && !redirectPending && location == None
    {
      isLoading := true;
      activationStatus := None;
      redirectPending := false;
      location := None;
    }

    /** `activateAccount`: without both parameters, fail without a request;
        otherwise succeed iff the post resolves with status 200. Every path
        ends with `isLoading` false and a status set. */
    method ActivateAccount(search: string, hash: string, lookup: Lookup, reply: Reply)
      returns (requested: bool)
      modifies this`isLoading, this`activationStatus
      ensures var query := QueryText(search, hash);
        requested <==> Present(lookup(query, "token")) && Present(lookup(query, "email"))
      ensures !isLoading && activationStatus.Some?
      ensures activationStatus == Some(Success) <==> requested && reply.Resolved? && reply.status == 200
    {
      var query := QueryText(search, hash);
      var token := lookup(query, "token");
      var email := lookup(query, "email");
      if !Present(token) || !Present(email) {
        activationStatus := Some(Error);
        isLoading := false;
        return false;
      }
      requested := true;
      match reply {
        case Resolved(status, _) =>
          activationStatus := if status == 200 then Some(Success) else Some(Error);
        case Rejected =>
          activationStatus := Some(Error);
      }
      isLoading := false;
    }

    /** The button: show the spinner and schedule the redirect, whatever the outcome. */
    method HandleDashboardClick()
      modifies this`isLoading, this`redirectPending
      ensures isLoading && redirectPending
    {
      isLoading := true;
      redirectPending := true;
    }

    /** The one-second timer: go to the login page and clear the spinner. */
    method RedirectTimerFires()
      requires redirectPending
      modifies this`isLoading, this`redirectPending, this`location
      ensures location == Some("/owner/login") && !isLoading && !redirectPending
    {
      location := Some("/owner/login");
      isLoading := false;
      redirectPending := false;
    }
  }
}
