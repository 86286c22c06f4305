/** The password-protected roster screen (components/AdminPanel.tsx): the
    login check, the load that authentication triggers, and the removal of a
    deleted creator from the list. The confirmation dialog's answer and the
    service's replies are parameters. */
module AdminPanel {
  import opened Common
  import opened Types
  import CreatorService

  /** The password the login form accepts. */
  const AdminPassword: string := "admin123"

  /** `prev.filter(c => c.id !== id)` */
  function WithoutId(roster: seq<Creator>, id: string): (r: seq<Creator>)
    ensures forall i :: 0 <= i < |r| ==> r[i].id != id
  {
    Filter((c: Creator) => c.id != id, roster)
  }

  /** The creators left are the others, in their order and with their
      repetitions; a creator goes exactly when it has the deleted id. */
  lemma WithoutIdSpec(roster: seq<Creator>, id: string)
    ensures IsSubsequence(WithoutId(roster, id), roster)
    ensures forall c :: c in WithoutId(roster, id) <==> c in roster && c.id != id
    ensures forall c: Creator :: c.id != id ==> multiset(WithoutId(roster, id))[c] == multiset(roster)[c]
  {
    var keep := (c: Creator) => c.id != id;
    FilterIsSubsequence(keep, roster);
    FilterMembership(keep, roster);
    FilterCounts(keep, roster);
  }

  /** Deleting an id nobody has leaves the list as it was. */
  lemma WithoutAbsentId(roster: seq<Creator>, id: string)
    requires forall i :: 0 <= i < |roster| ==> roster[i].id != id
    ensures WithoutId(roster, id) == roster
  {
    FilterAllPass((c: Creator) => c.id != id, roster);
  }

  /** Deleting the same id twice is deleting it once. */
  lemma WithoutIdTwice(roster: seq<Creator>, id: string)
    ensures WithoutId(WithoutId(roster, id), id) == WithoutId(roster, id)
  {
    FilterIdempotent((c: Creator) => c.id != id, roster);
  }

  /** The list after `handleDelete`: the deleted creator is removed only
      when the dialog was confirmed and the service call resolved. */
  function AfterDelete(roster: seq<Creator>, id: string, confirmed: bool, serviceResolved: bool): (r: seq<Creator>)
    ensures !confirmed || !serviceResolved ==> r == roster
    ensures confirmed && serviceResolved ==> r == WithoutId(roster, id)
  {
    if confirmed && serviceResolved then WithoutId(roster, id) else roster
  }

  /** As written, the screen's delete goes to a service member that does not
      exist, so no confirmed delete ever removes a listed creator. */
  lemma DeleteAsWrittenKeepsRoster(roster: seq<Creator>, k: int)
    requires 0 <= k < |roster|
    ensures var id := roster[k].id;
      && AfterDelete(roster, id, true, CreatorService.DeleteAsWritten(id).Success?) == roster
      && roster[k] !in WithoutId(roster, id)
  {
    WithoutIdSpec(roster, roster[k].id);
  }

  class AdminPanel {
    var isAuthenticated: bool
    var password: string
    var creators: seq<Creator>
    var loading: bool

    /** Before authentication nothing is listed and nothing loads. */
    ghost predicate Valid()
      reads this
    {
      !isAuthenticated ==> creators == [] && !loading
    }

    constructor ()
      ensures Valid()
      ensures !isAuthenticated && password == "" && creators == [] && !loading
    {
      isAuthenticated := false;
      password := "";
      creators := [];
      loading := false;
    }

    /** Typing in the password field. */
    method SetPassword(text: string)
      modifies this`password
      ensures password == text
    {
      password := text;
    }

    /** `handleLogin`, submitted from the login form, which is shown only
        before authentication. The right password authenticates, and the
        effect on the flag starts the roster load; a wrong one changes
        nothing. */
    method HandleLogin() returns (startsLoad: bool)
      requires Valid() && !isAuthenticated
      modifies this`isAuthenticated, this`loading
      ensures Valid()
      ensures isAuthenticated <==> old(password) == AdminPassword
      ensures startsLoad == isAuthenticated && loading == isAuthenticated
    {
      if password == AdminPassword {
        isAuthenticated := true;
        loading := true;
        startsLoad := true;
      } else {
        startsLoad := false;
      }
    }

    /** `load` when `getAll` resolves. */
    method RosterLoaded(data: seq<Creator>)
      requires Valid() && isAuthenticated
      modifies this`creators, this`loading
      ensures Valid()
      ensures creators == data && !loading
    {
      creators := data;
      loading := false;
    }

    /** `handleDelete`, from a row of the authenticated list, with the
        dialog's answer and the service's reply. */
    method HandleDelete(id: string, confirmed: bool, clientPresent: bool, reply: CreatorService.DeleteReply)
      requires Valid() && isAuthenticated
      modifies this`creators
      ensures Valid()
      ensures creators == AfterDelete(old(creators), id, confirmed,
                                      CreatorService.Delete(clientPresent, id, reply).Success?)
    {
      if !confirmed {
        return;
      }
      var result := CreatorService.Delete(clientPresent, id, reply);
      if result.Success? {
        creators := WithoutId(creators, id);
      }
    }
  }

  /** A confirmed delete the database accepts removes the creator from the
      list; one it refuses leaves the list alone. */
  lemma ConfirmedDeleteRemoves(roster: seq<Creator>, k: int, reply: CreatorService.DeleteReply)
    requires 0 <= k < |roster|
    ensures var id := roster[k].id;
      var after := AfterDelete(roster, id, true, CreatorService.Delete(true, id, reply).Success?);
      && (reply.Deleted? ==> roster[k] !in after && IsSubsequence(after, roster))
      && (reply.DeleteFailed? ==> after == roster)
  {
    WithoutIdSpec(roster, roster[k].id);
  }
}
