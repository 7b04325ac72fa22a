/** Restores of backed-up wallet keys: from this signer's own share, or directly from a source TEE. */
module Backup {
  import opened Terms
  import opened Instructions
  import opened FdcHandler
  import opened Deduplication

  /** The document found at the request's backup URL. */
  datatype BackupResponse = BackupResponse(backupId: BackupId, blob: Bytes)

  /** Everything a restore asks of the outside: the fetched document (None: the URL is refused, the
      exchange fails, the status is not 200 or the body does not decode), the checks WalletBackup.Check
      makes besides counting splits, which points lie on the curve, the signer's replies, and whether
      encryption and JSON encoding succeed. `oracle` answers the signing and sending that follow. */
  datatype World = World(
    backup: Option<BackupResponse>, action: Option<ActionResponse>,
    sealed: WalletBackup -> bool, onCurve: PublicKey -> bool,
    identity: Option<PublicKey>, decrypt: Bytes -> Option<Bytes>,
    encodesMeta: bool, encodesSplits: bool, encrypts: bool, oracle: Oracle)

  // ---------- gates, as the source tests them ----------

  /** checkConsistency: the destination and, field by field, the backup id. */
  function CheckConsistency(w: World, request: ProviderRestore, id: BackupId, tees: seq<Machine>): Result<(), string> {
    if !w.onCurve(request.teeKey) then Err("parsing TEE public key")
    else if |tees| != 1 then Err("restore can only be requested on one tee per instruction")
    else if OfKey(request.teeKey) != tees[0].teeId then Err("public key does not match the destination tee")
    else if request.backupId.teeId != id.teeId then Err("teeID")
    else if request.backupId.walletId != id.walletId then Err("walletID")
    else if request.backupId.keyId != id.keyId then Err("keyID")
    else if request.backupId.publicKey != id.publicKey then Err("publicKey")
    else if request.backupId.keyType != id.keyType then Err("keyType")
    else if request.backupId.signingAlgo != id.signingAlgo then Err("signingAlgo")
    else if request.backupId.rewardEpochId != id.rewardEpochId then Err("rewardEpochID")
    else if request.backupId.randomNonce != id.randomNonce then Err("randomNonce")
    else Ok(())
  }

  function CheckConsistencyDirect(received: BackupId, requested: BackupId): Result<(), string> {
    if received.teeId != requested.teeId then Err("tee IDs do not match")
    else if received.walletId != requested.walletId then Err("wallet IDs do not match")
    else if received.keyId != requested.keyId then Err("key IDs do not match")
    else if received.publicKey != requested.publicKey then Err("public keys do not match")
    else if received.keyType != requested.keyType then Err("key types do not match")
    else if received.signingAlgo != requested.signingAlgo then Err("signing algos do not match")
    else if received.rewardEpochId != requested.rewardEpochId then Err("reward epochs do not match")
    else if received.randomNonce != requested.randomNonce then Err("random nonces do not match")
    else Ok(())
  }

  function ValidateActionResponseDirect(r: ActionResponse, chainId: nat, sourceTee: Address, expectedId: Word)
    : Result<(), string>
  {
    var signed := PayloadHash(ActionResultPurpose, chainId, ResultHash(r.result));
    if !Verifies(sourceTee, signed, r.signature) then Err("signature")
    else if r.result.status != 1 then Err("status")
    else if r.result.tag != Threshold then Err("submission tag")
    else if r.result.id != expectedId then Err("unexpected ID")
    else if r.result.opType != Wallet then Err("op type")
    else if r.result.opCommand != KeyDirectBackup then Err("op command")
    else Ok(())
  }

  /** The field-by-field comparisons amount to equality: no field of an id is left unchecked. */
  lemma ConsistencyIsEquality(w: World, request: ProviderRestore, id: BackupId, tees: seq<Machine>)
    ensures CheckConsistency(w, request, id, tees).Ok? <==>
              w.onCurve(request.teeKey) && |tees| == 1 && tees[0].teeId == OfKey(request.teeKey) &&
                  request.backupId == id
    ensures CheckConsistencyDirect(request.backupId, id).Ok? <==> request.backupId == id
  {
  }

  /** WalletBackup.Check: one split for every owner, and the seals. */
  predicate Checked(w: World, wb: WalletBackup) {
    |wb.providers.splits| == |wb.providers.owners| && |wb.admins.splits| == |wb.admins.owners| && w.sealed(wb)
  }

  /** KeySplit.VerifySignature: signed by the wallet key the split itself names. */
  predicate SplitVerifies(chainId: nat, s: KeySplit) {
    s.signature == WalletSigned(s.backupId.publicKey, SplitHash(chainId, s.backupId, s.isAdmin, s.owner, s.shares))
  }

  function DecryptKeySplit(chainId: nat, w: World, cipher: Bytes): Option<KeySplit> {
    match w.decrypt(cipher)
    case Some(SplitDoc(s)) => if SplitVerifies(chainId, s) then Some(s) else None
    case _ => None
  }

  // ---------- what a restore adds, declaratively ----------

  /** A split of `wallet` that this signer can open. */
  predicate Opens(chainId: nat, w: World, wallet: BackupId, cipher: Bytes) {
    DecryptKeySplit(chainId, w, cipher).Some? && DecryptKeySplit(chainId, w, cipher).value.backupId == wallet
  }

  /** The split listed for the first occurrence of the owner. */
  function SplitOf(part: Shares, owner: PublicKey): Bytes
    requires owner in part.owners && |part.splits| == |part.owners|
  {
    part.splits[FirstIndex(part.owners, owner)]
  }

  /** Every list that names pk yields a split of this wallet. */
  predicate AllOpen(chainId: nat, w: World, wb: WalletBackup, pk: PublicKey)
    requires Checked(w, wb)
  {
    && (pk in wb.providers.owners ==> Opens(chainId, w, wb.meta.backupId, SplitOf(wb.providers, pk)))
    && (pk in wb.admins.owners ==> Opens(chainId, w, wb.meta.backupId, SplitOf(wb.admins, pk)))
  }

  predicate IsOwner(wb: WalletBackup, pk: PublicKey) {
    pk in wb.providers.owners || pk in wb.admins.owners
  }

  /** The document for the TEE: the one split, or the provider's and the admin's in this order. */
  function Plaintext(chainId: nat, w: World, wb: WalletBackup, pk: PublicKey): Bytes
    requires Checked(w, wb) && AllOpen(chainId, w, wb, pk) && IsOwner(wb, pk)
  {
    if pk !in wb.admins.owners then SplitDoc(DecryptKeySplit(chainId, w, SplitOf(wb.providers, pk)).value)
    else if pk !in wb.providers.owners then SplitDoc(DecryptKeySplit(chainId, w, SplitOf(wb.admins, pk)).value)
    else SplitPairDoc(DecryptKeySplit(chainId, w, SplitOf(wb.providers, pk)).value,
                      DecryptKeySplit(chainId, w, SplitOf(wb.admins, pk)).value)
  }

  /** The fetched backup belongs to the request and the request to its only destination. */
  predicate Matches(w: World, v: Value) {
    && v.data.originalMessage.ProviderRestoreDoc? && w.backup.Some? && w.backup.value.blob.BackupDoc?
    && var request, wb := v.data.originalMessage.providerRestore, w.backup.value.blob.backup;
    && |v.tees| == 1 && w.onCurve(request.teeKey) && v.tees[0].teeId == OfKey(request.teeKey)
    && request.backupId == w.backup.value.backupId == wb.meta.backupId
    && Checked(w, wb)
  }

  /** The outcome of a data-provider restore before signing. */
  function ProviderAnswer(chainId: nat, w: World, v: Value): Answer {
    if !Matches(w, v) || !w.encodesMeta || w.identity.None? then Fails else
    var request, wb, pk := v.data.originalMessage.providerRestore, w.backup.value.blob.backup, w.identity.value;
    if !IsOwner(wb, pk) then NothingToSend
    else if AllOpen(chainId, w, wb, pk) && w.encodesSplits && w.encrypts then
      Fetched(MetaDoc(wb.meta), Some(Cipher(request.teeKey, Plaintext(chainId, w, wb, pk))))
    else Fails
  }

  /** The fetched result is the requested backup action, signed by the source TEE, and carries an
      envelope signed by the same TEE for the same backup. */
  predicate DirectMatches(chainId: nat, w: World, v: Value) {
    && |v.tees| == 1 && v.data.originalMessage.DirectRestoreDoc? && w.action.Some?
    && var request, result := v.data.originalMessage.directRestore, w.action.value.result;
    && Verifies(request.sourceTee, PayloadHash(ActionResultPurpose, chainId, ResultHash(result)),
        w.action.value.signature)
    && result.status == 1 && result.tag == Threshold && result.id == request.backupInstruction
    && result.opType == Wallet && result.opCommand == KeyDirectBackup
    && result.data.EnvelopeDoc?
    && var envelope := result.data.envelope;
    && Verifies(request.sourceTee, PayloadHash(KeyDirectBackupPurpose, chainId, Keccak(envelope.payload)),
        envelope.teeSignature)
    && envelope.payload.PayloadDoc? && envelope.payload.backupId == request.backupId
  }

  function DirectAnswer(chainId: nat, w: World, v: Value): Answer {
    if DirectMatches(chainId, w, v) then Fetched(w.action.value.result.data, None) else Fails
  }

  /** The answers of one attempt on an instruction in state v. */
  function Answers(chainId: nat, w: World, v: Value): Oracle {
    var fetch :=
      match v.event.opCommand
      case KeyDataProviderRestore => ProviderAnswer(chainId, w, v)
      case KeyDirectRestore => DirectAnswer(chainId, w, v)
      case _ => Fails;
    (stage: Stage) => if stage.AtFetch? then fetch else w.oracle(stage)
  }

  // ---------- implementation ----------

  /** slices.Index */
  method Index(s: seq<PublicKey>, x: PublicKey) returns (i: int)
    ensures i == if x in s then FirstIndex(s, x) else -1
  {
    for k := 0 to |s|
      invariant x !in s[..k]
    {
      if s[k] == x {
        FirstIndexAt(s, x, k);
        return k;
      }
    }
    return -1;
  }

  lemma {:induction false} FirstIndexAt(s: seq<PublicKey>, x: PublicKey, k: nat)
    requires k < |s| && s[k] == x && x !in s[..k]
    ensures FirstIndex(s, x) == k
  {
    if k > 0 {
      assert s[0] in s[..k];
      assert s[1..][..k - 1] == s[..k][1..];
      FirstIndexAt(s[1..], x, k - 1);
    }
  }

  method PlaintextForTEE(chainId: nat, w: World, wb: WalletBackup, pk: PublicKey)
    returns (r: Result<Option<Bytes>, string>)
    requires Checked(w, wb)
    ensures r == Ok(None) <==> !IsOwner(wb, pk)
    ensures r.Ok? && r.value.Some? <==> IsOwner(wb, pk) && AllOpen(chainId, w, wb, pk) && w.encodesSplits
    ensures r.Ok? && r.value.Some? ==> r.value.value == Plaintext(chainId, w, wb, pk)
  {
    var index := Index(wb.providers.owners, pk);
    var indexAdmin := Index(wb.admins.owners, pk);
    if index >= 0 && indexAdmin >= 0 {
      var provider := DecryptKeySplit(chainId, w, wb.providers.splits[index]);
      if provider.None? {
        return Err("provider's key split");
      }
      if wb.meta.backupId != provider.value.backupId {
        return Err("invalid wallet id in provider's key split");
      }
      var admin := DecryptKeySplit(chainId, w, wb.admins.splits[indexAdmin]);
      if admin.None? {
        return Err("admin's key split");
      }
      if wb.meta.backupId != admin.value.backupId {
        return Err("invalid wallet id in admin's key split");
      }
      if !w.encodesSplits {
        return Err("marshaling");
      }
      return Ok(Some(SplitPairDoc(provider.value, admin.value)));
    } else if index >= 0 {
      var provider := DecryptKeySplit(chainId, w, wb.providers.splits[index]);
      if provider.None? {
        return Err("provider's key split");
      }
      if wb.meta.backupId != provider.value.backupId {
        return Err("invalid wallet id in provider's key split");
      }
      if !w.encodesSplits {
        return Err("marshaling");
      }
      return Ok(Some(SplitDoc(provider.value)));
    } else if indexAdmin >= 0 {
      var admin := DecryptKeySplit(chainId, w, wb.admins.splits[indexAdmin]);
      if admin.None? {
        return Err("admin's key split");
      }
      if wb.meta.backupId != admin.value.backupId {
        return Err("invalid wallet id in admin's key split");
      }
      if !w.encodesSplits {
        return Err("marshaling");
      }
      return Ok(Some(SplitDoc(admin.value)));
    } else {
      return Ok(None);
    }
  }

  /** Everything of a data-provider restore before signing; the metadata is written before the signer
      is asked, so a later failure leaves it in the object. */
  method PrepareProviderRestore(chainId: nat, w: World, ib: Base) returns (o: Outcome)
    modifies ib`data
    ensures OnlyExtrasDiffer(old(ib.Contents()), ib.Contents()) && ib.signatures == old(ib.signatures)
    ensures !o.Panic?
    ensures o.Success? <==> ProviderAnswer(chainId, w, old(ib.Contents())).Fetched?
    ensures o.Dropped? <==> ProviderAnswer(chainId, w, old(ib.Contents())).NothingToSend?
    ensures o.Success? ==>
              var a := ProviderAnswer(chainId, w, old(ib.Contents()));
              ib.data == old(ib.data).(fixedMessage := a.fixed, variableMessage := a.variable.value)
  {
    if !ib.data.originalMessage.ProviderRestoreDoc? {
      return Error("decoding restore request");
    }
    var request := ib.data.originalMessage.providerRestore;
    if w.backup.None? {
      return Error("fetching or decoding backup");
    }
    var response := w.backup.value;
    ConsistencyIsEquality(w, request, response.backupId, ib.tees);
    if CheckConsistency(w, request, response.backupId, ib.tees).Err? {
      return Error("backup package inconsistent with the request");
    }
    if !response.blob.BackupDoc? {
      return Error("unmarshaling wallet backup");
    }
    var wb := response.blob.backup;
    if !Checked(w, wb) {
      return Error("checking wallet backup");
    }
    if response.backupId != wb.meta.backupId {
      return Error("backup package wallet id does not match the response backup id");
    }
    if !w.encodesMeta {
      return Error("marshaling wallet backup metadata");
    }
    ib.data := ib.data.(fixedMessage := MetaDoc(wb.meta));
    if w.identity.None? {
      return Error("identifying signer");
    }
    var text := PlaintextForTEE(chainId, w, wb, w.identity.value);
    if text.Err? {
      return Error(text.error);
    }
    if text.value.None? {
      return Dropped;
    }
    if !w.encrypts {
      return Error("encrypting for TEE");
    }
    ib.data := ib.data.(variableMessage := Cipher(request.teeKey, text.value.value));
    return Success;
  }

  /** Everything of a direct restore before signing. */
  method PrepareDirectRestore(chainId: nat, w: World, ib: Base) returns (o: Outcome)
    modifies ib`data
    ensures OnlyExtrasDiffer(old(ib.Contents()), ib.Contents()) && ib.signatures == old(ib.signatures)
    ensures o.Success? || o.Error?
    ensures o.Success? <==> DirectMatches(chainId, w, old(ib.Contents()))
    ensures o.Success? ==> ib.data == old(ib.data).(fixedMessage := w.action.value.result.data)
  {
    if |ib.tees| != 1 {
      return Error("direct restore is only possible to one destination");
    }
    if !ib.data.originalMessage.DirectRestoreDoc? {
      return Error("decoding direct restore request");
    }
    var request := ib.data.originalMessage.directRestore;
    if w.action.None? {
      return Error("fetching or decoding direct backup envelope");
    }
    var response := w.action.value;
    if ValidateActionResponseDirect(response, chainId, request.sourceTee, request.backupInstruction).Err? {
      return Error("validating backup action response");
    }
    ib.data := ib.data.(fixedMessage := response.result.data);
    if !response.result.data.EnvelopeDoc? {
      return Error("unmarshaling SignedKeyDirectBackup");
    }
    var envelope := response.result.data.envelope;
    var prefixedHash := PayloadHash(KeyDirectBackupPurpose, chainId, Keccak(envelope.payload));
    if !Verifies(request.sourceTee, prefixedHash, envelope.teeSignature) {
      return Error("verifying SignedKeyDirectBackup signature against source TEE");
    }
    if !envelope.payload.PayloadDoc? {
      return Error("unmarshaling KeyDirectBackupPayload");
    }
    if CheckConsistencyDirect(envelope.payload.backupId, request.backupId).Err? {
      return Error("checking consistency");
    }
    return Success;
  }

  /** Process: one attempt of the relay machine's Fetch, HashTees, SignTees and Send steps, with the
      fetch answered as above. */
  method Process(h: Handler, w: World, ib: Base, out: Outlet) returns (o: Outcome)
    modifies ib, out
    ensures var p := Run(h, old(ib.Contents()), Fetch, Answers(h.chainId, w, old(ib.Contents())));
            && Reports(o, p)
            && (o.Success? ==> ib.Contents() == p.value)
    ensures OnlyExtrasDiffer(old(ib.Contents()), ib.Contents())
    ensures out.sent == old(out.sent) + if o.Success? then [ib] else []
  {
    ghost var start := ib.Contents();
    match ib.event.opCommand {
      case KeyDataProviderRestore => o := PrepareProviderRestore(h.chainId, w, ib);
      case KeyDirectRestore => o := PrepareDirectRestore(h.chainId, w, ib);
      case _ => return Error("unsupported op command");
    }
    if !o.Success? {
      return;
    }
    RunAfterFetch(h, w, start);
    o := SignAndSend(h, ib, out, w.oracle);
  }

  /** The object with the fetched messages in place. */
  function Spliced(v: Value, a: Answer): Value
    requires a.Fetched?
  {
    v.(data := v.data.(fixedMessage := a.fixed,
                       variableMessage := if a.variable.Some? then a.variable.value else v.data.variableMessage))
  }

  /** After a successful fetch the run goes on with the two extra messages in place. */
  lemma RunAfterFetch(h: Handler, w: World, v: Value)
    requires Answers(h.chainId, w, v)(AtFetch).Fetched?
    ensures Run(h, v, Fetch, Answers(h.chainId, w, v)) ==
              Run(h, Spliced(v, Answers(h.chainId, w, v)(AtFetch)), HashTees, w.oracle)
  {
    var a := Answers(h.chainId, w, v)(AtFetch);
    var p := Advance(h, v, Fetch, a);
    SameOracle(h, p.value, Answers(h.chainId, w, v), w.oracle);
  }

  lemma SameOracle(h: Handler, v: Value, a: Oracle, b: Oracle)
    requires a(AtHashTees) == b(AtHashTees) && a(AtSignTees) == b(AtSignTees) && a(AtSend) == b(AtSend)
    ensures Run(h, v, HashTees, a) == Run(h, v, HashTees, b)
  {
    var p := Advance(h, v, HashTees, a(AtHashTees));
    if p.Next? {
      var q := Advance(h, p.value, p.pc, a(AtSignTees));
      if q.Next? {
        assert Run(h, q.value, q.pc, a) == Run(h, q.value, q.pc, b);
      }
    }
  }
}
