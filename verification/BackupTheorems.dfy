/** What a restore that leaves the relay guarantees, and which honest restores get through. */
module BackupTheorems {
  import opened Terms
  import opened Signers
  import opened Instructions
  import opened FdcHandler
  import opened Deduplication
  import opened Backup

  /** The signer decrypts with the key it identifies with. */
  ghost predicate DecryptsHonestly(w: World) {
    w.identity.Some? && forall c: Bytes :: w.decrypt(c) == Open(w.identity.value, c)
  }

  /** A split of this wallet, signed by the wallet's key on this chain, whatever check admits it. */
  predicate SignedSplit(chainId: nat, s: KeySplit, wallet: BackupId) {
    && s.backupId == wallet
    && s.signature == WalletSigned(wallet.publicKey, SplitHash(chainId, wallet, s.isAdmin, s.owner, s.shares))
  }

  /** The response at the backup URL is a sealed backup of the requested key with one split per owner, and the
      request's key is that of the only destination. */
  predicate BackupInOrder(w: World, v: Value) {
    && v.data.originalMessage.ProviderRestoreDoc? && w.backup.Some? && w.backup.value.blob.BackupDoc?
    && var request, wb := v.data.originalMessage.providerRestore, w.backup.value.blob.backup;
    && |v.tees| == 1 && v.tees[0].teeId == OfKey(request.teeKey) && w.onCurve(request.teeKey)
    && w.backup.value.backupId == request.backupId && wb.meta.backupId == request.backupId
    && w.sealed(wb)
    && |wb.providers.splits| == |wb.providers.owners| && |wb.admins.splits| == |wb.admins.owners|
  }

  /** s is the split encrypted to `owner` at its place in `part`, for this wallet and chain. */
  predicate IsSplitOf(chainId: nat, s: KeySplit, part: Shares, owner: PublicKey, wallet: BackupId) {
    && owner in part.owners && |part.splits| == |part.owners|
    && part.splits[FirstIndex(part.owners, owner)] == Cipher(owner, SplitDoc(s))
    && SignedSplit(chainId, s, wallet)
  }

  /** The document holds exactly the splits this owner is entitled to forward. */
  predicate DocumentFor(chainId: nat, text: Bytes, wb: WalletBackup, owner: PublicKey, wallet: BackupId) {
    match text
    case SplitDoc(s) =>
      || (owner !in wb.admins.owners && IsSplitOf(chainId, s, wb.providers, owner, wallet))
      || (owner !in wb.providers.owners && IsSplitOf(chainId, s, wb.admins, owner, wallet))
    case SplitPairDoc(p, a) =>
      IsSplitOf(chainId, p, wb.providers, owner, wallet) && IsSplitOf(chainId, a, wb.admins, owner, wallet)
    case _ => false
  }

  /** One signed split for one list that names the owner, a pair for both. */
  predicate SignedDocument(chainId: nat, text: Bytes, wb: WalletBackup, owner: PublicKey, wallet: BackupId) {
    match text
    case SplitDoc(s) =>
      SignedSplit(chainId, s, wallet) && (owner in wb.providers.owners <==> owner !in wb.admins.owners)
    case SplitPairDoc(p, a) =>
      && SignedSplit(chainId, p, wallet) && SignedSplit(chainId, a, wallet)
      && owner in wb.providers.owners && owner in wb.admins.owners
    case _ => false
  }

  /** One backup id from the request to every decrypted split, one destination, and only that destination can
      read what is forwarded. */
  ghost predicate SoundProviderRestore(chainId: nat, w: World, v: Value, fixed: Bytes, cipher: Bytes) {
    && BackupInOrder(w, v) && w.identity.Some?
    && var request, wb := v.data.originalMessage.providerRestore, w.backup.value.blob.backup;
    && fixed == MetaDoc(wb.meta)
    && (forall key :: Open(key, cipher).Some? <==> key == request.teeKey)
    && var text := Open(request.teeKey, cipher).value;
    && SignedDocument(chainId, text, wb, w.identity.value, request.backupId)
    && (DecryptsHonestly(w) ==> DocumentFor(chainId, text, wb, w.identity.value, request.backupId))
  }

  /** Whatever the decryption service answers, ids and split signatures agree; if it decrypts honestly, the
      splits are moreover those encrypted to this signer at its provider or admin index. */
  lemma ProviderRestoreSound(chainId: nat, w: World, v: Value)
    requires ProviderAnswer(chainId, w, v).Fetched?
    ensures var a := ProviderAnswer(chainId, w, v);
            a.variable.Some? && SoundProviderRestore(chainId, w, v, a.fixed, a.variable.value)
  {
    if DecryptsHonestly(w) {
      SplitsAreForSigner(chainId, w, v);
    }
  }

  lemma SplitsAreForSigner(chainId: nat, w: World, v: Value)
    requires ProviderAnswer(chainId, w, v).Fetched? && DecryptsHonestly(w)
    ensures var wb, pk := w.backup.value.blob.backup, w.identity.value;
            DocumentFor(chainId, Plaintext(chainId, w, wb, pk), wb, pk, wb.meta.backupId)
  {
    var wb, pk := w.backup.value.blob.backup, w.identity.value;
    if pk in wb.providers.owners {
      OpenedSplit(chainId, w, wb.providers, pk, wb.meta.backupId);
    }
    if pk in wb.admins.owners {
      OpenedSplit(chainId, w, wb.admins, pk, wb.meta.backupId);
    }
  }

  lemma OpenedSplit(chainId: nat, w: World, part: Shares, pk: PublicKey, wallet: BackupId)
    requires DecryptsHonestly(w) && pk == w.identity.value && pk in part.owners && |part.splits| == |part.owners|
    requires Opens(chainId, w, wallet, SplitOf(part, pk))
    ensures IsSplitOf(chainId, DecryptKeySplit(chainId, w, SplitOf(part, pk)).value, part, pk, wallet)
  {
    assert w.decrypt(SplitOf(part, pk)) == Open(pk, SplitOf(part, pk));
  }

  /** A list of splits as the TEE that made the backup writes it. */
  predicate SealedFor(chainId: nat, part: Shares, wallet: BackupId) {
    && |part.splits| == |part.owners|
    && forall i | 0 <= i < |part.owners| ::
         var c := part.splits[i];
         c.Cipher? && c.recipient == part.owners[i] && c.plain.SplitDoc? &&
         SignedSplit(chainId, c.plain.split, wallet)
  }

  /** Every honest backup that matches the request is forwarded to the owners, and nothing is sent,
      without an error, exactly for signers in neither list. */
  lemma ProviderRestoreComplete(chainId: nat, w: World, v: Value)
    requires BackupInOrder(w, v) && DecryptsHonestly(w) && w.encodesMeta && w.encodesSplits && w.encrypts
    requires var wb := w.backup.value.blob.backup;
             SealedFor(chainId, wb.providers, wb.meta.backupId) && SealedFor(chainId, wb.admins, wb.meta.backupId)
    ensures var wb, pk := w.backup.value.blob.backup, w.identity.value;
            var owner := pk in wb.providers.owners || pk in wb.admins.owners;
            (ProviderAnswer(chainId, w, v).Fetched? <==> owner) &&
                (ProviderAnswer(chainId, w, v).NothingToSend? <==> !owner)
  {
    var wb, pk := w.backup.value.blob.backup, w.identity.value;
    if pk in wb.providers.owners {
      SealedOpens(chainId, w, wb.providers, wb.meta.backupId);
    }
    if pk in wb.admins.owners {
      SealedOpens(chainId, w, wb.admins, wb.meta.backupId);
    }
  }

  lemma SealedOpens(chainId: nat, w: World, part: Shares, wallet: BackupId)
    requires DecryptsHonestly(w) && SealedFor(chainId, part, wallet) && w.identity.value in part.owners
    ensures Opens(chainId, w, wallet, SplitOf(part, w.identity.value))
  {
    var c := SplitOf(part, w.identity.value);
    assert w.decrypt(c) == Open(w.identity.value, c);
  }

  // ---------- direct restore ----------

  /** What the source TEE with this key answers for a direct backup with this payload secret. */
  function SourceResponse(key: PublicKey, chainId: nat, request: DirectRestore, secret: Word): ActionResponse {
    var payload := PayloadDoc(request.backupId, secret);
    var envelope := Envelope(payload, By(key, TextHash(PayloadHash(KeyDirectBackupPurpose, chainId, Keccak(payload)))));
    var result := ActionResult(request.backupInstruction, Threshold, 1, Wallet, KeyDirectBackup, EnvelopeDoc(envelope));
    ActionResponse(result, By(key, TextHash(PayloadHash(ActionResultPurpose, chainId, ResultHash(result)))))
  }

  ghost predicate FromSource(chainId: nat, request: DirectRestore, response: ActionResponse) {
    exists key, secret :: OfKey(key) == request.sourceTee && response == SourceResponse(key, chainId, request, secret)
  }

  /** Soundness and completeness at once: the responses accepted are precisely those the requested
      source TEE produces on this chain for this request, and the spliced message is its envelope. */
  lemma DirectAcceptsExactlySource(chainId: nat, w: World, v: Value)
    ensures DirectAnswer(chainId, w, v).Fetched? <==>
              && |v.tees| == 1 && v.data.originalMessage.DirectRestoreDoc? && w.action.Some?
              && FromSource(chainId, v.data.originalMessage.directRestore, w.action.value)
    ensures DirectAnswer(chainId, w, v).Fetched? ==>
              DirectAnswer(chainId, w, v) == Fetched(w.action.value.result.data, None) &&
                  w.action.value.result.data.EnvelopeDoc?
  {
    if DirectMatches(chainId, w, v) {
      var response, request := w.action.value, v.data.originalMessage.directRestore;
      var key, secret := response.signature.key, response.result.data.envelope.payload.secret;
      assert response == SourceResponse(key, chainId, request, secret);
    }
  }

  /** A fetched response is good for one chain, one source TEE, one backup instruction and one backup. */
  lemma DirectBinding(c1: nat, w1: World, v1: Value, c2: nat, w2: World, v2: Value)
    requires DirectAnswer(c1, w1, v1).Fetched? && DirectAnswer(c2, w2, v2).Fetched? && w1.action == w2.action
    ensures c1 == c2 && v1.data.originalMessage == v2.data.originalMessage
  {
    DirectAcceptsExactlySource(c1, w1, v1);
    DirectAcceptsExactlySource(c2, w2, v2);
  }

  // ---------- to the sender ----------

  lemma TailEmission(h: Handler, v: Value, oracle: Oracle)
    requires Run(h, v, HashTees, oracle).Emitted?
    ensures var reply := Call(h.signer, Hashes(v, h.chainId), ReplyOf(oracle(AtSignTees)));
            reply.Ok? && Run(h, v, HashTees, oracle) == Emitted(v.(signatures := reply.value))
  {
    var p := Advance(h, v, HashTees, oracle(AtHashTees));
    var q := Advance(h, p.value, p.pc, oracle(AtSignTees));
    assert Run(h, v, HashTees, oracle) == Run(h, p.value, p.pc, oracle) == Run(h, q.value, q.pc, oracle);
  }

  /** An emitted restore carries the validated messages to its one destination under a signature valid
      for exactly that message. */
  lemma RestoreEmission(h: Handler, w: World, v: Value)
    requires Run(h, v, Fetch, Answers(h.chainId, w, v)).Emitted? && !h.signer.Other?
    requires var a := Answers(h.chainId, w, v)(AtFetch);
             a.Fetched? ==> Honest(h.signer, Hashes(Spliced(v, a), h.chainId), ReplyOf(w.oracle(AtSignTees)))
    ensures var a, e := Answers(h.chainId, w, v)(AtFetch), Run(h, v, Fetch, Answers(h.chainId, w, v)).value;
            && a.Fetched? && e.(signatures := v.signatures) == Spliced(v, a) && |e.tees| == 1
            && var m := PrepareInstruction(e, 0);
            && m.Ready? && m.data == e.data.(teeId := v.tees[0].teeId)
            && Verifies(OfKey(h.signer.key), InstructionHash(h.chainId, m.data), m.signature)
  {
    var a := Answers(h.chainId, w, v)(AtFetch);
    assert a.Fetched?;
    RunAfterFetch(h, w, v);
    var u := Spliced(v, a);
    TailEmission(h, u, w.oracle);
    SignerContract(h.signer, Hashes(u, h.chainId), ReplyOf(w.oracle(AtSignTees)));
    var e := Run(h, v, Fetch, Answers(h.chainId, w, v)).value;
    assert Hashes(e, h.chainId) == Hashes(u, h.chainId);
    SignedMessagesVerify(e, h.signer.key, h.chainId, 0);
  }
}
