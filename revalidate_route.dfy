/**
 * app/api/revalidate/route.ts: the CMS webhook. It checks the shared
 * secret (a bearer token, section 2.1 of RFC 6750), works out which
 * content model changed, and revalidates the project pages for a project
 * change.
 *
 * The secret comes from the environment and the body from the request:
 * both are parameters. `revalidatePath` calls are the list of paths in the
 * response; the timestamp is left out.
 */
module RevalidateRoute {
  import opened Common

  /** The fields of the webhook payload the handler reads. */
  datatype Body = Body(
    model: Option<string>,
    entryUid: Option<string>,
    event: Option<string>,
    slug: Option<string>,
    entrySlug: Option<string>)

  /** What `request.json()` gives: a parse failure, JSON `null`, or an object. */
  datatype Parsed = Unparsable | JsonNull | Object(body: Body)

  datatype PathKind = Page | Layout

  /** The handler's answer: status, the `revalidated` flag if any, the paths revalidated, and the echoed body. */
  datatype Reply = Reply(status: int, revalidated: Option<bool>, paths: seq<(string, PathKind)>, echoed: Option<Body>)

  const ProjectPaths: seq<(string, PathKind)> := [("/projects", Page), ("/project", Layout)]

  /** Position of the first `.` in `s`. */
  function FirstDot(s: string): (r: Option<nat>)
    ensures r.Some? ==> r.value < |s| && s[r.value] == '.' && '.' !in s[..r.value]
    ensures r.None? ==> '.' !in s
  {
    var i := FindFirst(s, (c: char) => c == '.');
    if i.Some? then
      assert forall j :: 0 <= j < i.value ==> s[..i.value][j] == s[j];
      i
    else
      assert forall j :: 0 <= j < |s| ==> s[j] != '.';
      None
  }

  /** `uid.split('.')[1]`: the text between the first and the second dot, `undefined` without a dot. */
  function SecondSegment(uid: string): (r: Option<string>)
    ensures r.None? <==> '.' !in uid
    ensures r.Some? ==> '.' !in r.value
  {
    var i := FirstDot(uid);
    if i.None? then None
    else
      var rest := uid[i.value + 1..];
      var j := FirstDot(rest);
      if j.None? then Some(rest) else Some(rest[..j.value])
  }

  /** For a Strapi uid `<namespace>.<name>` the segment is the model's name. */
  lemma {:induction false} SecondSegmentOfUid(ns: string, name: string)
    requires '.' !in ns && '.' !in name
    ensures SecondSegment(ns + "." + name) == Some(name)
  {
    var uid := ns + "." + name;
    var i := FirstDot(uid);
    assert uid[|ns|] == '.';
    assert forall k :: 0 <= k < |ns| ==> uid[k] == ns[k];
    assert i == Some(|ns|);
    assert uid[|ns| + 1..] == name;
  }

  lemma ProjectUid()
    ensures SecondSegment("api::project.project") == Some("project")
  {
    var ns, name := "api::project", "project";
    assert forall k :: 0 <= k < |ns| ==> ns[k] != '.';
    assert forall k :: 0 <= k < |name| ==> name[k] != '.';
    assert ns + "." + name == "api::project.project";
    SecondSegmentOfUid(ns, name);
  }

  /** `body.model || body.entry?.uid?.split('.')[1]`. */
  function ModelOf(b: Body): (m: Option<string>)
    ensures Truthy(b.model) ==> m == b.model
    ensures !Truthy(b.model) && b.entryUid.Some? ==> m == SecondSegment(b.entryUid.value)
    ensures !Truthy(b.model) && b.entryUid.None? ==> m.None?
  {
    if Truthy(b.model) then b.model
    else if b.entryUid.Some? then SecondSegment(b.entryUid.value)
    else None
  }

  /** `model === 'project' || body.event?.includes('project')`. */
  predicate IsProjectChange(b: Body) {
    ModelOf(b) == Some("project") || (b.event.Some? && Contains(b.event.value, "project"))
  }

  /** `POST`: the decision chain of the webhook. */
  function Post(secret: Option<string>, authorization: Option<string>, body: Parsed): (r: Reply)
    ensures !Truthy(secret) ==> r.status == 500 && r.paths == []
    ensures Truthy(secret) && authorization != Some("Bearer " + secret.value) ==> r.status == 401 && r.paths == []
    ensures Truthy(secret) && authorization == Some("Bearer " + secret.value) && !body.Object? ==> (
      r.status == 500 && r.paths == [] && r.revalidated.None?)
    ensures r.status == 200 <==> Truthy(secret) && authorization == Some("Bearer " + secret.value) && body.Object?
    ensures r.paths != [] <==> r.status == 200 && IsProjectChange(body.body)
    ensures r.paths != [] ==> r.paths == ProjectPaths && r.revalidated == Some(true)
    ensures r.status == 200 && r.paths == [] ==> r.revalidated == Some(false) && r.echoed == Some(body.body)
  {
    if !Truthy(secret) then Reply(500, None, [], None)
    else if authorization != Some("Bearer " + secret.value) then Reply(401, None, [], None)
    else match body
      case Unparsable => Reply(500, None, [], None)
      case JsonNull => Reply(500, None, [], None)
      case Object(b) =>
        if IsProjectChange(b) then Reply(200, Some(true), ProjectPaths, None)
        else Reply(200, Some(false), [], Some(b))
  }

  /** A request with a wrong or missing token is rejected before its body is looked at. */
  lemma AuthBeforeBody(secret: Option<string>, authorization: Option<string>, b1: Parsed, b2: Parsed)
    requires Truthy(secret) && authorization != Some("Bearer " + secret.value)
    ensures Post(secret, authorization, b1) == Post(secret, authorization, b2)
  {
  }

  /** An unset secret fails the webhook whatever the caller sends. */
  lemma MissingSecretFailsAlways(a1: Option<string>, a2: Option<string>, b1: Parsed, b2: Parsed)
    ensures Post(None, a1, b1) == Post(None, a2, b2)
    ensures Post(Some(""), a1, b1) == Post(None, a2, b2)
  {
  }

  /** The slug in the payload never changes which paths are revalidated. */
  lemma SlugIsIgnored(secret: Option<string>, authorization: Option<string>, b: Body, slug: Option<string>, entrySlug: Option<string>)
    ensures Post(secret, authorization, Object(b)).paths ==
            Post(secret, authorization, Object(b.(slug := slug, entrySlug := entrySlug))).paths
  {
  }

  /** A Strapi publish event for a project entry revalidates the project pages. */
  lemma StrapiProjectEventRevalidates(secret: string, b: Body)
    requires secret != "" && !Truthy(b.model) && b.entryUid == Some("api::project.project")
    ensures Post(Some(secret), Some("Bearer " + secret), Object(b)).paths == ProjectPaths
  {
    ProjectUid();
  }
}
