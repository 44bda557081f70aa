/** The matching step of `getHarvestUserIdWithEmail`: the Harvest people listing is
    searched for the first person whose email is exactly the Slack user's email. */
module UserLookup {
  import opened Wrappers
  import opened HarvestTypes
  import Seqs

  predicate HasEmail(email: string, u: User) {
    u.email == email
  }

  /** The id of the first listed user whose email equals `email` (strict string equality),
      or `None` when nobody matches. */
  function HarvestUserIdWithEmail(users: seq<User>, email: string): (r: Option<int>)
    ensures r.None? <==> forall j :: 0 <= j < |users| ==> users[j].email != email
    ensures r.Some? ==> exists i :: 0 <= i < |users| && users[i].email == email && users[i].id == r.value
                                    && forall j :: 0 <= j < i ==> users[j].email != email
  {
    match Seqs.Find(users, u => HasEmail(email, u))
    case None => None
    case Some(u) => Some(u.id)
  }

  /** When emails are unique in the listing, the lookup returns the id of the one user with
      that email, wherever it is listed. */
  lemma UniqueEmailFindsThatUser(users: seq<User>, k: nat)
    requires k < |users|
    requires forall i, j :: 0 <= i < j < |users| ==> users[i].email != users[j].email
    ensures HarvestUserIdWithEmail(users, users[k].email) == Some(users[k].id)
  {
  }
}
