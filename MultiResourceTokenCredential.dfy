/** The token credential that serves either protected resource, choosing the
    broker's Graph or Azure AI token from the scopes a client requests. */
module MultiResourceTokenCredential {
  import opened Wrappers
  import opened AzureCore
  import Text
  import MultiResourceTokenService

  /** The host name that marks a request for the Azure AI resource. */
  const AzureAIHost: string := "cognitiveservices.azure.com"

  /** scopes.Any(scope => scope.Contains(AzureAIHost, OrdinalIgnoreCase)). */
  predicate AnyScopeNamesAzureAI(scopes: seq<string>) {
    if scopes == [] then false
    else Text.ContainsIgnoreCase(scopes[0], AzureAIHost) || AnyScopeNamesAzureAI(scopes[1..])
  }

  /** requestContext.Scopes?.Any(...) == true: a null scope array is not an
      Azure AI request. */
  predicate IsAzureAIRequest(scopes: Option<seq<string>>) {
    scopes.Some? && AnyScopeNamesAzureAI(scopes.value)
  }

  lemma {:induction false} AnyScopeNamesAzureAIIff(scopes: seq<string>)
    ensures AnyScopeNamesAzureAI(scopes) <==>
      exists i :: 0 <= i < |scopes| && Text.ContainsIgnoreCase(scopes[i], AzureAIHost)
  {
    if scopes != [] {
      AnyScopeNamesAzureAIIff(scopes[1..]);
      if i :| 0 <= i < |scopes| && Text.ContainsIgnoreCase(scopes[i], AzureAIHost) {
        if i > 0 {
          assert scopes[1..][i - 1] == scopes[i];
        }
      }
      if j :| 0 <= j < |scopes[1..]| && Text.ContainsIgnoreCase(scopes[1..][j], AzureAIHost) {
        assert scopes[j + 1] == scopes[1..][j];
      }
    }
  }

  /** The routing rule: a request goes to the Azure AI token exactly when one
      of its scopes contains the Azure AI host name at some position, letters
      compared without regard to case; a null or empty scope array goes to the
      Graph token. */
  lemma RoutingRule(scopes: Option<seq<string>>)
    ensures IsAzureAIRequest(scopes) <==>
      scopes.Some? &&
      exists i, p :: 0 <= i < |scopes.value| && 0 <= p && p + |AzureAIHost| <= |scopes.value[i]|
                     && Text.MatchesAt(scopes.value[i], AzureAIHost, p)
    ensures scopes.None? || scopes == Some([]) ==> !IsAzureAIRequest(scopes)
  {
    if scopes.Some? {
      var s := scopes.value;
      AnyScopeNamesAzureAIIff(s);
      forall i | 0 <= i < |s|
        ensures Text.ContainsIgnoreCase(s[i], AzureAIHost) <==>
          exists p :: 0 <= p && p + |AzureAIHost| <= |s[i]| && Text.MatchesAt(s[i], AzureAIHost, p)
      {
        Text.ContainsIgnoreCaseIff(s[i], AzureAIHost);
      }
    }
  }

  /** GetTokenAsync: the broker's Azure AI token for an Azure AI request, its
      Graph token otherwise, stamped to expire 55 minutes from now; a broker
      error is rethrown unchanged. */
  function GetTokenAsync(tokenService: MultiResourceTokenService.TokenService,
                         requestContext: TokenRequestContext, now: int): (r: Result<AccessToken>)
    ensures IssuedFrom(r, if IsAzureAIRequest(requestContext.Scopes) then tokenService.azureAI else tokenService.graph,
                       now + 55 * Minute)
    ensures r.Ok? ==> r.value.ExpiresOn > now
  {
    var isAzureAI := IsAzureAIRequest(requestContext.Scopes);
    var token := if isAzureAI then tokenService.azureAI else tokenService.graph;
    match token
    case Ok(accessToken) => Ok(AccessToken(accessToken, now + 55 * Minute))
    case Err(fault) => Err(fault)
  }

  /** GetToken, the synchronous entry point, blocks on GetTokenAsync and so
      returns or throws exactly what it does. */
  function GetToken(tokenService: MultiResourceTokenService.TokenService,
                    requestContext: TokenRequestContext, now: int): (r: Result<AccessToken>)
    ensures r == GetTokenAsync(tokenService, requestContext, now)
  {
    GetTokenAsync(tokenService, requestContext, now)
  }

  /** The broker's Azure AI scope routes to the Azure AI token. */
  lemma AzureAIScopesRouteToAzureAI()
    ensures IsAzureAIRequest(Some(MultiResourceTokenService.AzureAIScopes))
  {
    var ai := MultiResourceTokenService.AzureAIScopes[0];
    assert ai == "https://" + AzureAIHost + "/.default";
    assert ai[8..8 + |AzureAIHost|] == AzureAIHost;
    CopyMatches(ai, AzureAIHost, 8);
    Text.ContainsIgnoreCaseIff(ai, AzureAIHost);
  }

  /** None of the broker's Graph scopes routes to the Azure AI token. */
  lemma GraphScopesRouteToGraph()
    ensures !IsAzureAIRequest(Some(MultiResourceTokenService.GraphScopes))
  {
    var graph := MultiResourceTokenService.GraphScopes;
    forall i | 0 <= i < |graph|
      ensures !Text.ContainsIgnoreCase(graph[i], AzureAIHost)
    {
      GraphScopeSafe(i);
    }
    AnyScopeNamesAzureAIIff(graph);
  }

  lemma GraphScopeSafe(i: int)
    requires 0 <= i < |MultiResourceTokenService.GraphScopes|
    ensures !Text.ContainsIgnoreCase(MultiResourceTokenService.GraphScopes[i], AzureAIHost)
  {
    var permission :=
      if i == 0 then "Files.Read.All" else if i == 1 then "Sites.Read.All"
      else if i == 2 then "Mail.Send" else "User.Read.All";
    assert MultiResourceTokenService.GraphScopes[i] == MultiResourceTokenService.GraphResource + permission;
    GraphScopeHasNoV(permission);
  }

  /** A Graph scope whose permission name has no letter v does not name the
      Azure AI host. */
  lemma GraphScopeHasNoV(permission: string)
    requires 'v' !in permission && 'V' !in permission
    ensures !Text.ContainsIgnoreCase(MultiResourceTokenService.GraphResource + permission, AzureAIHost)
  {
    var prefix := MultiResourceTokenService.GraphResource;
    assert 'v' !in prefix && 'V' !in prefix;
    var text := prefix + permission;
    forall j | 0 <= j < |text|
      ensures text[j] != 'v' && text[j] != 'V'
    {
      if j < |prefix| { assert text[j] == prefix[j]; } else { assert text[j] == permission[j - |prefix|]; }
    }
    NoLetterVMeansNoAzureAIHost(text);
  }

  /** Routing ignores case: scopes that differ only in the case of their
      letters route to the same token. */
  lemma RoutingIgnoresCase(scopes1: seq<string>, scopes2: seq<string>)
    requires |scopes1| == |scopes2|
    requires forall i :: 0 <= i < |scopes1| ==> |scopes1[i]| == |scopes2[i]|
    requires forall i, j :: 0 <= i < |scopes1| && 0 <= j < |scopes1[i]| ==>
               Text.FoldUpper(scopes1[i][j]) == Text.FoldUpper(scopes2[i][j])
    ensures IsAzureAIRequest(Some(scopes1)) == IsAzureAIRequest(Some(scopes2))
  {
    AnyScopeNamesAzureAIIff(scopes1);
    AnyScopeNamesAzureAIIff(scopes2);
    forall i | 0 <= i < |scopes1|
      ensures Text.ContainsIgnoreCase(scopes1[i], AzureAIHost) == Text.ContainsIgnoreCase(scopes2[i], AzureAIHost)
    {
      ScopeTestIgnoresCase(scopes1[i], scopes2[i]);
    }
  }

  /** The test of one scope ignores case. */
  lemma ScopeTestIgnoresCase(scope1: string, scope2: string)
    requires |scope1| == |scope2|
    requires forall j :: 0 <= j < |scope1| ==> Text.FoldUpper(scope1[j]) == Text.FoldUpper(scope2[j])
    ensures Text.ContainsIgnoreCase(scope1, AzureAIHost) == Text.ContainsIgnoreCase(scope2, AzureAIHost)
  {
    Text.ContainsIgnoreCaseIff(scope1, AzureAIHost);
    Text.ContainsIgnoreCaseIff(scope2, AzureAIHost);
    forall p | 0 <= p && p + |AzureAIHost| <= |scope1|
      ensures Text.MatchesAt(scope1, AzureAIHost, p) == Text.MatchesAt(scope2, AzureAIHost, p)
    {
    }
  }

  /** An exact copy of the value matches, whatever the case folding. */
  lemma CopyMatches(text: string, value: string, p: int)
    requires 0 <= p && p + |value| <= |text| && text[p..p + |value|] == value
    ensures Text.MatchesAt(text, value, p)
  {
    forall k | 0 <= k < |value|
      ensures Text.FoldUpper(text[p + k]) == Text.FoldUpper(value[k])
    {
      assert text[p..p + |value|][k] == text[p + k];
    }
  }

  /** A text with no letter v in either case cannot contain the Azure AI host
      name, whose eighth character is a v. */
  lemma NoLetterVMeansNoAzureAIHost(text: string)
    requires 'v' !in text && 'V' !in text
    ensures !Text.ContainsIgnoreCase(text, AzureAIHost)
  {
    Text.ContainsIgnoreCaseIff(text, AzureAIHost);
    assert Text.FoldUpper(AzureAIHost[7]) == 'V';
    forall p | 0 <= p && p + |AzureAIHost| <= |text|
      ensures !Text.MatchesAt(text, AzureAIHost, p)
    {
      var c := text[p + 7];
      assert c in text;
      assert Text.FoldUpper(c) != 'V';
    }
  }
}
