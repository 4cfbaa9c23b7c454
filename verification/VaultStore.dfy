/** The vault over the store: what a committed seal stored is what the next read returns. */
module VaultStore {
  import opened Base
  import opened Aead
  import opened Vault
  import opened StoreModel
  import opened StoreInvariants
  import opened StoreRuns
  import opened StoreTheorems

  /** The owner of a stored item; `text` is how identifiers are written out. */
  function OwnerOf(text: ID -> Bytes, id: ID, account: ID, device: ID): Owner {
    Owner(text(device), CODEX, text(id), text(account))
  }

  /** The stored row as the vault reads it. */
  function Load(text: ID -> Bytes, d: Db, id: ID): Outcome<Item> {
    if id !in d.items then Err(NotFound)
    else
      var row := d.items[id];
      Ok(Item(OwnerOf(text, id, row.account, row.device), row.revision, row.envelope, row.secret))
  }

  /** The vault's item as it goes into the store. */
  function RowOf(item: Item, account: ID, device: ID): VaultItem {
    VaultItem(account, device, item.revision, item.secret, item.envelope)
  }

  /**
   If a seal commits, whether it replaces an older item or not and whether or not it completes an
   enrollment, reading the credential from the new database returns the plaintext and the next revision.
   */
  lemma CommittedSealIsReadable(text: ID -> Bytes, json: Bytes -> bool, hash: Bytes -> Digest, kek: Bytes, dek: Bytes,
                                payloadNonce: Bytes, wrapNonce: Bytes, d: Db, id: ID, account: ID, device: ID,
                                expected: int, plain: Bytes, owner: Option<SealOwner>)
    requires Inv(d)
    requires var sealed := SealItem(kek, dek, payloadNonce, wrapNonce, OwnerOf(text, id, account, device), expected,
                                    plain, json, hash);
             sealed.Ok? && SealTx(d, id, expected, RowOf(sealed.value, account, device), owner).Ok?
    ensures var sealed := SealItem(kek, dek, payloadNonce, wrapNonce, OwnerOf(text, id, account, device), expected,
                                   plain, json, hash).value;
            var loaded := Load(text, SealTx(d, id, expected, RowOf(sealed, account, device), owner).value, id);
            loaded.Ok? && ReadItem(kek, loaded.value, json, hash) == Ok((plain, expected + 1))
  {
    var o := OwnerOf(text, id, account, device);
    var sealed := SealItem(kek, dek, payloadNonce, wrapNonce, o, expected, plain, json, hash).value;
    SealThenRead(kek, dek, payloadNonce, wrapNonce, o, expected, plain, json, hash);
    StoresItem(d, id, expected, RowOf(sealed, account, device), owner);
  }

  /** The stored row is the given one even where only its encrypted part is replaced. */
  lemma StoresItem(d: Db, id: ID, expected: int, item: VaultItem, owner: Option<SealOwner>)
    requires Inv(d) && SealTx(d, id, expected, item, owner).Ok?
    ensures var e := SealTx(d, id, expected, item, owner).value; id in e.items && e.items[id] == item
  {
  }

  /**
   And it still does after any run, until the credential is sealed again or revoked: nothing else that
   happens in the store can make the secret unreadable or change what is read.
   */
  lemma SealedStaysReadable(text: ID -> Bytes, json: Bytes -> bool, hash: Bytes -> Digest, kek: Bytes, w: World, id: ID,
                            plain: Bytes, es: seq<Event>)
    requires WInv(w) && id in w.db.items && id in w.db.credentials
    requires ReadItem(kek, Load(text, w.db, id).value, json, hash) == Ok((plain, w.db.credentials[id].revision))
    requires Unsuperseded(Run(w, es).db, id, w.db.credentials[id].revision)
    ensures var loaded := Load(text, Run(w, es).db, id);
            loaded.Ok? && ReadItem(kek, loaded.value, json, hash) == Ok((plain, w.db.credentials[id].revision))
  {
    ItemStays(w, es, id);
  }
}
