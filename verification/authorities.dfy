/**
 The granted-authority tokens that the post-login redirect decision recognises.

 An authority is an opaque string compared by exact equality. Only three
 tokens mean anything to the decision; every other string is ignored.
 */
module Authorities {
  import opened Wrappers

  const ROLE_MANAGER: string := "ROLE_MANAGER"
  const WRITE_PRIVILEGE: string := "WRITE_PRIVILEGE"
  const READ_PRIVILEGE: string := "READ_PRIVILEGE"

  /** The recognised authorities, one constructor per token. */
  datatype Authority = RoleManager | WritePrivilege | ReadPrivilege

  /** The token a recognised authority is granted under. */
  function Name(a: Authority): string
  {
    match a
    case RoleManager => ROLE_MANAGER
    case WritePrivilege => WRITE_PRIVILEGE
    case ReadPrivilege => READ_PRIVILEGE
  }

  /** Recognises a granted token by exact string equality; any other token is
      not an authority the decision knows about. */
  function Parse(token: string): (r: Option<Authority>)
    ensures r.Some? ==> Name(r.value) == token
    ensures r.None? <==> forall a: Authority :: Name(a) != token
  {
    if token == ROLE_MANAGER then Some(RoleManager)
    else if token == WRITE_PRIVILEGE then Some(WritePrivilege)
    else if token == READ_PRIVILEGE then Some(ReadPrivilege)
    else None
  }

  /** Parsing the token of an authority gives that authority back, so no two
      recognised authorities share a token. */
  lemma ParseName(a: Authority)
    ensures Parse(Name(a)) == Some(a)
  {
  }

  /** Priority of an authority in the decision: a higher rank wins. Manager
      outranks write and write outranks read. */
  function Rank(a: Authority): nat
  {
    match a
    case RoleManager => 3
    case WritePrivilege => 2
    case ReadPrivilege => 1
  }

  /** Ranks are a strict order: two authorities of equal rank are the same. */
  lemma RankInjective(a: Authority, b: Authority)
    ensures Rank(a) == Rank(b) <==> a == b
  {
  }
}
