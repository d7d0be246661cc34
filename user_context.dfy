/**
 * The role context (context/UserContext.tsx): the provider keeps the current
 * role, which starts as investor and is toggled by `switchRole`; the current
 * user is derived from the role; `useUser` fails outside a provider.
 */
module UserContext {
  import opened Types
  import opened Constants

  /** The role `switchRole` moves to from `r`. */
  function Switched(r: Role): (s: Role)
    ensures s != r
    ensures r == Investor ==> s == Founder
    ensures r == Founder ==> s == Investor
  {
    if r == Investor then Founder else Investor
  }

  /** Switching twice restores the role. */
  lemma SwitchTwice(r: Role)
    ensures Switched(Switched(r)) == r
  {
  }

  /** The simulated user for a role: the mock investor for investors, the mock founder otherwise. */
  function UserFor(role: Role): (p: Profile)
    ensures p == MockInvestor <==> role == Investor
    ensures p == MockFounder <==> role == Founder
    ensures p.role == role
  {
    assert MockInvestor.role == Investor && MockFounder.role == Founder;
    if role == Investor then MockInvestor else MockFounder
  }

  /** The value the provider hands to its children. */
  datatype ContextValue = ContextValue(user: Profile, role: Role)

  const OutsideProviderError: string := "useUser must be used within a UserProvider"

  /** `useUser()`: the provider's value, or the error it throws when there is none. */
  function UseUser(ctx: Option<ContextValue>): (r: Result<ContextValue>)
    ensures r.Failure? <==> ctx.None?
    ensures r.Failure? ==> r.error == OutsideProviderError
    ensures r.Success? ==> r.value == ctx.value
  {
    match ctx
    case None => Failure(OutsideProviderError)
    case Some(v) => Success(v)
  }

  /** `UserProvider`'s state. */
  class UserProvider {
    var role: Role

    constructor ()
      ensures role == Investor
    {
      role := Investor;
    }

    /** `user`, recomputed from the role on every render. */
    function User(): Profile
      reads this
    {
      UserFor(role)
    }

    function Value(): (v: ContextValue)
      reads this
      ensures v.role == role && v.user.role == role
      ensures v.user == UserFor(role)
    {
      ContextValue(User(), role)
    }

    method SwitchRole()
      modifies this
      ensures role == Switched(old(role))
    {
      role := if role == Investor then Founder else Investor;
    }
  }

  /** A fresh provider serves the mock investor; after one switch it serves the mock founder. */
  method ProviderScenario()
  {
    var p := new UserProvider();
    assert p.User() == MockInvestor;
    p.SwitchRole();
    assert p.role == Founder && p.User() == MockFounder;
    p.SwitchRole();
    assert p.role == Investor;
  }
}
