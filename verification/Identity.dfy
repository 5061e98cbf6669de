/** Composite keys joined by NUL, and the producer identities built from them. */
module Identity {
  import opened Types

  const NUL: char := '\0'

  predicate NulFree(s: string) { NUL !in s }

  function Join3(a: string, b: string, c: string): string {
    a + [NUL] + b + [NUL] + c
  }

  /** SHA-256 is taken to be injective, so a digest is represented by what was hashed. */
  function EventIdentity(attempt: string, lease: string, ids: seq<string>): (id: EventId)
    ensures id == Assigned <==> |ids| == 0 || ids[0] == ""
  {
    if |ids| == 0 || ids[0] == "" then Assigned else Producer(Join3(attempt, lease, ids[0]))
  }

  /** The key under which a submission is remembered. */
  function SubmitScope(request: Request): string {
    Join3(request.tenant, request.project, request.key)
  }

  /** Splitting at the first NUL recovers the parts. */
  lemma JoinInjective(a: string, r: string, a': string, r': string)
    requires NulFree(a) && NulFree(a')
    requires a + [NUL] + r == a' + [NUL] + r'
    ensures a == a' && r == r'
  {
    var s := a + [NUL] + r;
    var s' := a' + [NUL] + r';
    assert s[|a|] == NUL && s'[|a'|] == NUL;
    assert forall i :: 0 <= i < |a| ==> s[i] != NUL;
    assert forall i :: 0 <= i < |a'| ==> s'[i] != NUL;
    assert a == s[..|a|] == a';
    assert r == s[|a| + 1..] == r';
  }

  lemma Join3Injective(a: string, b: string, c: string, a': string, b': string, c': string)
    requires NulFree(a) && NulFree(b) && NulFree(a') && NulFree(b')
    ensures Join3(a, b, c) == Join3(a', b', c') <==> a == a' && b == b' && c == c'
  {
    if Join3(a, b, c) == Join3(a', b', c') {
      assert Join3(a, b, c) == a + [NUL] + (b + [NUL] + c);
      assert Join3(a', b', c') == a' + [NUL] + (b' + [NUL] + c');
      JoinInjective(a, b + [NUL] + c, a', b' + [NUL] + c');
      JoinInjective(b, c, b', c');
    }
  }

  /** Two events have one identity exactly when they are the same event of the same attempt under the same lease. */
  lemma IdentityScoped(attempt: string, lease: string, ids: seq<string>, attempt': string, lease': string, ids': seq<string>)
    requires NulFree(attempt) && NulFree(lease) && NulFree(attempt') && NulFree(lease')
    requires EventIdentity(attempt, lease, ids).Producer? && EventIdentity(attempt', lease', ids').Producer?
    ensures EventIdentity(attempt, lease, ids) == EventIdentity(attempt', lease', ids') <==>
            attempt == attempt' && lease == lease' && ids[0] == ids'[0]
  {
    Join3Injective(attempt, lease, ids[0], attempt', lease', ids'[0]);
  }

  /** A NUL inside a tenant or a project name lets another request claim the same key. */
  lemma ScopeCollides(request: Request)
    ensures NulFree(request.tenant) && NulFree(request.project) ==>
              forall other: Request | NulFree(other.tenant) && NulFree(other.project) ::
                SubmitScope(other) == SubmitScope(request) <==>
                other.tenant == request.tenant && other.project == request.project && other.key == request.key
    ensures !(NulFree(request.tenant) && NulFree(request.project)) ==>
              exists other: Request ::
                SubmitScope(other) == SubmitScope(request) && NulFree(other.tenant) && NulFree(other.project) &&
                (other.tenant != request.tenant || other.project != request.project || other.key != request.key)
  {
    if NulFree(request.tenant) && NulFree(request.project) {
      forall other: Request | NulFree(other.tenant) && NulFree(other.project)
        ensures SubmitScope(other) == SubmitScope(request) <==>
                other.tenant == request.tenant && other.project == request.project && other.key == request.key
      {
        Join3Injective(other.tenant, other.project, other.key, request.tenant, request.project, request.key);
      }
    } else {
      var a, rest := SplitAtNul(SubmitScope(request), |request.tenant|);
      var n := |a| + 1 + |rest|;
      assert rest == SubmitScope(request)[|a| + 1..];
      assert exists k :: 0 <= k < |rest| && rest[k] == NUL by {
        assert SubmitScope(request)[|request.tenant| + 1 + |request.project|] == NUL;
        assert rest[|request.tenant| + |request.project| - |a|] == NUL;
      }
      var k :| 0 <= k < |rest| && rest[k] == NUL;
      var b, c := SplitAtNul(rest, k);
      var other := request.(tenant := a, project := b, key := c);
      assert SubmitScope(other) == a + [NUL] + (b + [NUL] + c);
      assert SubmitScope(other) == SubmitScope(request);
    }
  }

  /** Cuts a text that has a NUL at `at` around its first NUL. */
  lemma SplitAtNul(s: string, at: nat) returns (a: string, rest: string)
    requires at < |s| && s[at] == NUL
    ensures s == a + [NUL] + rest && NulFree(a) && |a| <= at
  {
    var i := 0;
    while s[i] != NUL
      invariant 0 <= i <= at
      invariant forall j :: 0 <= j < i ==> s[j] != NUL
      decreases at - i
    {
      i := i + 1;
    }
    a, rest := s[..i], s[i + 1..];
  }
}
