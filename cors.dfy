/**
 * The server's CORS allow-list and its origin check. The list is fixed at
 * start-up from the environment: outside production the two local
 * development origins; in production `FRONTEND_URL` split on commas with
 * empty pieces dropped and no trimming, and the deployed front end when that
 * leaves nothing.
 */
module Cors {
  import opened Wrappers
  import opened Js

  const DevOrigins: seq<string> := ["http://localhost:5173", "http://localhost:5174"]

  const DefaultProductionOrigin := "https://resume-builder-mern-sjj8.vercel.app"

  /** The non-empty pieces of a comma-separated setting. */
  function ConfiguredPieces(frontendUrl: OptStr): (pieces: seq<string>)
    ensures forall p :: p in pieces ==> p != "" && ',' !in p
  {
    NonEmpty(Split(Or(frontendUrl, ""), ','))
  }

  /** Builds `allowedOrigins` as the server does at start-up: the split list, then the fallback pushed onto an empty one. */
  method AllowedOrigins(production: bool, frontendUrl: OptStr) returns (allowed: seq<string>)
    ensures !production ==> allowed == DevOrigins
    ensures production && ConfiguredPieces(frontendUrl) != [] ==> allowed == ConfiguredPieces(frontendUrl)
    ensures production && ConfiguredPieces(frontendUrl) == [] ==> allowed == [DefaultProductionOrigin]
    ensures |allowed| >= 1
  {
    if production {
      allowed := ConfiguredPieces(frontendUrl);
    } else {
      allowed := DevOrigins;
    }
    if production && |allowed| == 0 {
      allowed := allowed + [DefaultProductionOrigin];
    }
  }

  /** The outcome of the origin callback. */
  datatype CorsDecision = Allow | Reject(message: string)

  /**
   * The origin callback: a request without an origin is allowed, as is one
   * whose origin is listed or when the list holds "*"; any other is rejected.
   */
  function CheckOrigin(allowed: seq<string>, origin: OptStr): (d: CorsDecision)
    ensures d == Allow <==> !Truthy(origin) || origin.value in allowed || "*" in allowed
    ensures d.Reject? ==> d.message == "Not allowed by CORS"
  {
    if !Truthy(origin) then Allow
    else if origin.value in allowed || "*" in allowed then Allow
    else Reject("Not allowed by CORS")
  }

  /** Outside production exactly the two local development origins are let through. */
  lemma DevelopmentAllowsOnlyLocalhost(origin: string)
    requires origin != ""
    ensures CheckOrigin(DevOrigins, Some(origin)) == Allow <==> origin in DevOrigins
  {
    assert "*" != DevOrigins[0] && "*" != DevOrigins[1];
  }

  /** When every comma-separated piece of the setting is non-empty, the list joined by commas is the setting itself. */
  lemma {:induction false} ConfiguredPiecesRoundTrip(frontendUrl: string)
    requires forall p :: p in Split(frontendUrl, ',') ==> p != ""
    ensures Join(ConfiguredPieces(Some(frontendUrl)), ",") == frontendUrl
  {
    var pieces := Split(frontendUrl, ',');
    NonEmptyKeepsAll(pieces);
    JoinSplit(frontendUrl, ',');
    if frontendUrl == "" {
      assert pieces == [""];
    }
  }

  /** Dropping empty strings from a list that has none keeps the list. */
  lemma {:induction false} NonEmptyKeepsAll(xs: seq<string>)
    requires forall x :: x in xs ==> x != ""
    ensures NonEmpty(xs) == xs
  {
    if xs != [] {
      assert forall x :: x in xs[1..] ==> x in xs;
      NonEmptyKeepsAll(xs[1..]);
      assert xs[0] in xs;
      assert xs == [xs[0]] + xs[1..];
    }
  }
}
