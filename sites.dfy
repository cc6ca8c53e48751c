/** Website registration (app/api/website/route.ts): POST registers a site for
    the signed-in user, GET lists the user's sites. The user table and the
    site table are the fields of `SiteRegistry`; the identity provider's
    `currentUser()` is an `Option` of the caller's external (Clerk) id. */
module Sites {
  import opened Common
  import opened Text

  /** Primary key of a user row. */
  type UserId = nat

  /** A row of the site table (the `Website` interface of types/website.ts). */
  datatype Site = Site(
    id: nat,
    websiteId: string,
    domain: string,
    timezone: string,
    enableLocalTracking: bool,
    userId: UserId,
    createdAt: int,
    updatedAt: int
  )

  /** The JSON body of a registration request. `enableLocalTracking` is
      None when the field is absent or not a boolean. */
  datatype NewSite = NewSite(
    websiteId: Option<string>,
    domain: Option<string>,
    timezone: Option<string>,
    enableLocalTracking: Option<bool>
  )

  datatype PostResponse =
    | Unauthorized            // 401: no signed-in user, or no user row for them
    | BadRequest              // 400: a field missing, empty or of the wrong type
    | AlreadyExists           // 400: the caller already has a site with this domain
    | Created(site: Site)     // 201

  datatype GetResponse =
    | GetUnauthorized         // 401
    | Listed(sites: seq<Site>) // 200

  /** The validation of the request body: three non-empty strings and a boolean. */
  predicate ValidRequest(b: NewSite) {
    Truthy(b.websiteId) && Truthy(b.domain) && Truthy(b.timezone) && b.enableLocalTracking.Some?
  }

  /** No user owns two sites with the same domain. */
  predicate DomainsUniquePerUser(sites: seq<Site>) {
    forall i, j :: 0 <= i < j < |sites| ==>
      sites[i].userId != sites[j].userId || sites[i].domain != sites[j].domain
  }

  /** Whether some site of user u has the given domain (`findFirst` on both columns). */
  predicate Owns(sites: seq<Site>, u: UserId, domain: string) {
    exists i :: 0 <= i < |sites| && sites[i].userId == u && sites[i].domain == domain
  }

  /** The sites of user u, in table order. */
  function OwnedBy(sites: seq<Site>, u: UserId): (r: seq<Site>)
    ensures forall s :: s in r <==> s in sites && s.userId == u
  {
    Filter(sites, (s: Site) => s.userId == u)
  }

  /** A site that the POST handler inserts for user row u. */
  function NewRow(id: nat, b: NewSite, u: UserId, now: int): Site
    requires ValidRequest(b)
  {
    Site(id, b.websiteId.value, b.domain.value, b.timezone.value, b.enableLocalTracking.value, u, now, now)
  }

  /** Appending a site for a domain its owner does not have yet keeps domains
      unique per user. */
  lemma InsertKeepsUnique(sites: seq<Site>, s: Site)
    requires DomainsUniquePerUser(sites)
    requires !Owns(sites, s.userId, s.domain)
    ensures DomainsUniquePerUser(sites + [s])
  {
    var t := sites + [s];
    forall i, j | 0 <= i < j < |t| ensures t[i].userId != t[j].userId || t[i].domain != t[j].domain {
      if j == |sites| {
        assert t[i] == sites[i];
      } else {
        assert t[i] == sites[i] && t[j] == sites[j];
      }
    }
  }

  class SiteRegistry {
    /** The user table: external id to user row id. */
    var users: map<string, UserId>
    /** The site table, in insertion order. */
    var sites: seq<Site>
    /** The next site id the table hands out. */
    var nextId: nat

    ghost predicate Valid()
      reads this
    {
      && DomainsUniquePerUser(sites)
      && (forall i :: 0 <= i < |sites| ==> sites[i].id < nextId)
    }

    constructor (users: map<string, UserId>)
      ensures Valid()
      ensures this.users == users && sites == [] && nextId == 1
    {
      this.users := users;
      sites := [];
      nextId := 1;
    }

    /** POST /api/website. */
    method Post(caller: Option<string>, body: NewSite, now: int) returns (resp: PostResponse)
      requires Valid()
      modifies this
      ensures Valid()
      ensures users == old(users)
      ensures caller.None? ==> resp == Unauthorized
      ensures caller.Some? && !ValidRequest(body) ==> resp == BadRequest
      ensures caller.Some? && ValidRequest(body) && caller.value !in users ==> resp == Unauthorized
      ensures (caller.Some? && ValidRequest(body) && caller.value in users
               && Owns(old(sites), users[caller.value], body.domain.value)) ==> resp == AlreadyExists
      ensures !resp.Created? ==> sites == old(sites) && nextId == old(nextId)
      ensures resp.Created? <==>
                caller.Some? && ValidRequest(body) && caller.value in users
                && !Owns(old(sites), users[caller.value], body.domain.value)
      ensures resp.Created? ==>
                && resp.site == NewRow(old(nextId), body, users[caller.value], now)
                && sites == old(sites) + [resp.site]
                && nextId == old(nextId) + 1
    {
      if caller.None? {
        return Unauthorized;
      }
      if !ValidRequest(body) {
        return BadRequest;
      }
      if caller.value !in users {
        return Unauthorized;
      }
      var u := users[caller.value];
      var domain := body.domain.value;
      if Owns(sites, u, domain) {
        return AlreadyExists;
      }
      var site := NewRow(nextId, body, u, now);
      InsertKeepsUnique(sites, site);
      sites := sites + [site];
      nextId := nextId + 1;
      resp := Created(site);
    }

    /** GET /api/website: exactly the caller's sites. */
    function Get(caller: Option<string>): (r: GetResponse)
      reads this
      ensures caller.None? || caller.value !in users <==> r == GetUnauthorized
      ensures r.Listed? ==> forall s :: s in r.sites <==> s in sites && s.userId == users[caller.value]
    {
      if caller.None? || caller.value !in users then GetUnauthorized
      else Listed(OwnedBy(sites, users[caller.value]))
    }
  }
}
