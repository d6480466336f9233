/** The configuration of the `apify/instagram-scraper` actor and its
    validation (`actors/instagram.rs`). */
module InstagramActor {
  import opened Wrappers
  import opened Json
  import opened Text
  import opened Filtering
  import opened Dto

  datatype InstagramConfig = InstagramConfig(
    usernames: seq<string>,
    maxPosts: uint32,
    includeProfileInfo: bool,
    includeComments: bool)

  /** The value of `max_posts` when the request leaves it out. */
  const DefaultMaxPosts: uint32 := 50

  /** The longest accepted username, in UTF-8 bytes. */
  const MaxUsernameBytes := 30

  /** `InstagramScraperConfig::metadata`. */
  const Metadata := ActorMetadata("instagram", "apify/instagram-scraper")

  /** A username with a space, or longer than 30 bytes, is malformed. */
  predicate IsMalformed(u: string) {
    ' ' in u || Utf8Len(u) > MaxUsernameBytes
  }

  /** A username fails when it is blank or malformed; the loop stops at
      the first such. */
  predicate UsernameFails(u: string) {
    IsBlank(u) || IsMalformed(u)
  }

  /** There are usernames and none fails. */
  predicate UsernamesOk(usernames: seq<string>) {
    |usernames| > 0 && forall i :: 0 <= i < |usernames| ==> !UsernameFails(usernames[i])
  }

  /** `validate`: the checks in source order. Each username is checked for
      blankness and then for its form before the next is looked at. */
  function Validate(c: InstagramConfig): (r: Result<(), string>)
    ensures r.Success? <==> UsernamesOk(c.usernames) && c.maxPosts > 0
    ensures |c.usernames| == 0 ==> r == Failure("usernames cannot be empty")
    ensures forall i :: 0 <= i < |c.usernames| && UsernameFails(c.usernames[i])
                        && (forall j :: 0 <= j < i ==> !UsernameFails(c.usernames[j])) ==>
                          r == if IsBlank(c.usernames[i]) then Failure("username cannot be empty")
                               else Failure("Invalid Instagram username: " + c.usernames[i])
    ensures UsernamesOk(c.usernames) && c.maxPosts == 0 ==> r == Failure("max_posts must be greater than 0")
  {
    if |c.usernames| == 0 then Failure("usernames cannot be empty")
    else
      match FirstFailing(c.usernames, UsernameFails)
      case Some(i) =>
        if IsBlank(c.usernames[i]) then Failure("username cannot be empty")
        else Failure("Invalid Instagram username: " + c.usernames[i])
      case None =>
        if c.maxPosts == 0 then Failure("max_posts must be greater than 0")
        else Success(())
  }

  /** The configuration as `serde` writes it, with camelCase keys. */
  function ToJson(c: InstagramConfig): (v: Json)
    ensures v.JObject? && v.fields.Keys == {"usernames", "maxPosts", "includeProfileInfo", "includeComments"}
    ensures v.fields["usernames"] == StringArray(c.usernames)
    ensures v.fields["maxPosts"] == JNumber(c.maxPosts)
    ensures v.fields["includeProfileInfo"] == JBool(c.includeProfileInfo)
    ensures v.fields["includeComments"] == JBool(c.includeComments)
  {
    JObject(map["usernames" := StringArray(c.usernames),
                "maxPosts" := JNumber(c.maxPosts),
                "includeProfileInfo" := JBool(c.includeProfileInfo),
                "includeComments" := JBool(c.includeComments)])
  }

  /** The default post limit passes for any list of well-formed usernames. */
  lemma DefaultIsValid(usernames: seq<string>, profile: bool, comments: bool)
    requires UsernamesOk(usernames)
    ensures Validate(InstagramConfig(usernames, DefaultMaxPosts, profile, comments)) == Success(())
  {
  }

  /** A username of spaces only is reported as empty, not as malformed. */
  lemma SpacesOnlyIsEmpty(rest: seq<string>)
    ensures Validate(InstagramConfig(["  "] + rest, DefaultMaxPosts, false, false))
              == Failure("username cannot be empty")
  {
    var c := InstagramConfig(["  "] + rest, DefaultMaxPosts, false, false);
    assert c.usernames[0] == "  ";
    assert IsBlank(c.usernames[0]);
  }
}
