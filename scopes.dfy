/**
 * The OAuth2 scopes of the API and how they relate: `admin` can access
 * everything, `user` is limited to the base functionality.
 */
module Scopes {

  const Admin: string := "admin"
  const User: string := "user"

  /** The scope table, as key and value, in the order it lists them. */
  const ScopeTable: seq<(string, string)> := [("admin", Admin), ("user", User)]

  /** Whether a scope is one of the table's values (doesScopeExist). */
  method DoesScopeExist(scope: string) returns (found: bool)
    ensures found <==> exists i | 0 <= i < |ScopeTable| :: ScopeTable[i].1 == scope
    ensures found <==> scope == Admin || scope == User
  {
    var i := 0;
    while i < |ScopeTable|
      invariant 0 <= i <= |ScopeTable|
      invariant forall k | 0 <= k < i :: ScopeTable[k].1 != scope
    {
      if ScopeTable[i].1 == scope {
        return true;
      }
      i := i + 1;
    }
    assert ScopeTable[0].1 == Admin && ScopeTable[1].1 == User;
    return false;
  }

  /** Whether a scope is at least the required one; admin always passes (isScopeValid). */
  function IsScopeValid(scope: string, requiredScope: string): (valid: bool)
    ensures scope == Admin ==> valid
    ensures scope != Admin ==> (valid <==> scope == requiredScope)
  {
    scope == Admin || scope == requiredScope
  }

  /** Every scope satisfies itself, and the relation is transitive. */
  lemma ValidityOrder(a: string, b: string, c: string)
    ensures IsScopeValid(a, a)
    ensures IsScopeValid(a, b) && IsScopeValid(b, c) ==> IsScopeValid(a, c)
  {
  }

  /** The user scope does not satisfy an admin requirement. */
  lemma UserNotAdmin()
    ensures !IsScopeValid(User, Admin) && IsScopeValid(User, User)
  {
  }
}
