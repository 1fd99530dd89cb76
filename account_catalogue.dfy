/** CatalogoCuentasCompartidas: the list of shared accounts. An account has
    no `equals` of its own, so removal compares references. */
module AccountCatalogues {
  import opened Wrappers
  import opened Ids
  import opened SharedAccounts
  import Seqs

  /** `buscarPorId`: the first account with this identifier. */
  function FindAccount(accounts: seq<SharedAccount>, id: Id): (r: Option<SharedAccount>)
    ensures r.None? <==> forall i :: 0 <= i < |accounts| ==> accounts[i].id != id
    ensures r.Some? ==> exists k :: 0 <= k < |accounts| && accounts[k] == r.value && r.value.id == id &&
                                    forall j :: 0 <= j < k ==> accounts[j].id != id
  {
    if |accounts| == 0 then None
    else if accounts[0].id == id then Some(accounts[0])
    else
      var r := FindAccount(accounts[1..], id);
      assert forall j :: 1 <= j < |accounts| ==> accounts[j] == accounts[1..][j - 1];
      if r.Some? then
        ghost var k :| 0 <= k < |accounts| - 1 && accounts[1..][k] == r.value && r.value.id == id &&
                       forall j :: 0 <= j < k ==> accounts[1..][j].id != id;
        assert accounts[k + 1] == r.value;
        r
      else r
  }

  class AccountCatalogue {
    var accounts: seq<SharedAccount>

    constructor ()
      ensures accounts == []
    {
      accounts := [];
    }

    /** `agregarCuenta`: at the end. */
    method Add(a: SharedAccount)
      modifies this
      ensures accounts == old(accounts) + [a]
    {
      accounts := accounts + [a];
    }

    /** `eliminarCuenta`: the first occurrence of this very account goes;
        an account not in the list changes nothing. */
    method Remove(a: SharedAccount)
      modifies this
      ensures a !in old(accounts) ==> accounts == old(accounts)
      ensures a in old(accounts) ==> |accounts| == |old(accounts)| - 1
      ensures a in old(accounts) ==>
        exists k :: 0 <= k < |old(accounts)| && old(accounts)[k] == a && a !in old(accounts)[..k] &&
                    accounts == old(accounts)[..k] + old(accounts)[k + 1..]
    {
      accounts := Seqs.RemoveFirst(accounts, (x: SharedAccount) => x == a);
    }

    /** `buscarPorId`. */
    function Find(id: Id): (r: Option<SharedAccount>)
      reads this
      ensures r.Some? ==> r.value in accounts && r.value.id == id
      ensures r.None? <==> forall a :: a in accounts ==> a.id != id
    {
      FindAccount(accounts, id)
    }

    /** `obtenerTodas`: a copy of the list. */
    function All(): (r: seq<SharedAccount>)
      reads this
      ensures r == accounts
    {
      accounts
    }
  }
}
