/**
 * The local steps of the service-account snippets of iam/snippets.js:
 * the display-name overwrite in `renameServiceAccount` and the resource
 * each account or key request names. The get, update, delete and key
 * calls themselves are remote; the record `get` returns is a parameter.
 */
module ServiceAccounts {
  import opened Wrappers
  import opened ResourceNames

  /** A fetched service-account record; `renameServiceAccount` overwrites one field. */
  class ServiceAccount {
    var name: string
    var email: string
    var displayName: string
    var description: string

    constructor (name: string, email: string, displayName: string, description: string)
      ensures this.name == name && this.email == email
      ensures this.displayName == displayName && this.description == description
    {
      this.name := name;
      this.email := email;
      this.displayName := displayName;
      this.description := description;
    }
  }

  /** `renameServiceAccount(email, newDisplayName)` between its two remote
      calls: `fetched` is what the get on `resource` returned; afterwards it
      is the body of the update on that same `resource`. */
  method RenameServiceAccount(email: string, newDisplayName: string, fetched: ServiceAccount)
    returns (resource: string)
    modifies fetched`displayName
    ensures resource == ServiceAccountName(email)
    ensures ParseServiceAccountName(resource) == Some(email)
    ensures fetched.displayName == newDisplayName
    ensures fetched.name == old(fetched.name) && fetched.email == old(fetched.email)
    ensures fetched.description == old(fetched.description)
  {
    resource := ServiceAccountsPrefix + email;
    ServiceAccountNameRoundTrip(email);
    fetched.displayName := newDisplayName;
  }

  /** The account and key requests that name a service account by email. */
  datatype AccountCall = DeleteAccount(name: string) | CreateKey(name: string) | ListKeys(name: string)

  /** `deleteServiceAccount`. */
  function DeleteAccountCall(email: string): (c: AccountCall)
    ensures c.DeleteAccount? && ParseServiceAccountName(c.name) == Some(email)
  {
    ServiceAccountNameRoundTrip(email);
    DeleteAccount(ServiceAccountName(email))
  }

  /** `createKey`. */
  function CreateKeyCall(email: string): (c: AccountCall)
    ensures c.CreateKey? && ParseServiceAccountName(c.name) == Some(email)
  {
    ServiceAccountNameRoundTrip(email);
    CreateKey(ServiceAccountName(email))
  }

  /** `listKeys`. */
  function ListKeysCall(email: string): (c: AccountCall)
    ensures c.ListKeys? && ParseServiceAccountName(c.name) == Some(email)
  {
    ServiceAccountNameRoundTrip(email);
    ListKeys(ServiceAccountName(email))
  }

  /** The delete, create-key and list-keys requests for one email name the
      same resource: exactly `'projects/-/serviceAccounts/' + email`, the
      resource `RenameServiceAccount` also returns. */
  lemma AccountCallsShareResource(email: string)
    ensures DeleteAccountCall(email).name == CreateKeyCall(email).name == ListKeysCall(email).name
              == ServiceAccountName(email) == "projects/-/serviceAccounts/" + email
  {
  }

  /** Requests for different emails name different accounts. */
  lemma AccountCallsDistinguishAccounts(e1: string, e2: string)
    requires e1 != e2
    ensures DeleteAccountCall(e1).name != DeleteAccountCall(e2).name
    ensures CreateKeyCall(e1).name != CreateKeyCall(e2).name
  {
    if ServiceAccountName(e1) == ServiceAccountName(e2) {
      ServiceAccountNameInjective(e1, e2);
    }
  }
}
