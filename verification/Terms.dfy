/** The vocabulary of the relay: instructions, hashes, signatures, ciphertexts and documents.

    Cryptography and encodings are symbolic. A hash is the term of what was hashed, a signature
    records the key and the hash it covers, a ciphertext records its recipient and its plaintext,
    and an encoded document carries the value it encodes. Equality of terms stands for equality of
    digests, so collision resistance and unforgeability are properties of the terms themselves. */
module Terms {

  datatype Option<+T> = None | Some(value: T)

  datatype Result<+T, +E> = Ok(value: T) | Err(error: E)

  type Byte = b: int | 0 <= b < 0x100

  type Bytes32 = s: seq<Byte> | |s| == 32 witness seq(32, _ => 0)

  /** A 32-byte value whose contents never matter, only its identity. */
  type Word = nat

  datatype PublicKey = PublicKey(x: nat, y: nat)

  datatype Address = OfKey(key: PublicKey) | Account(id: nat)

  datatype OpType = FDC2 | Wallet | OtherType(n: nat)

  datatype OpCommand =
    | Prove | KeyDataProviderRestore | KeyDirectRestore | KeyDirectBackup | OtherCommand(n: nat)

  /** One entry of an event's list of TEE machines. */
  datatype Machine = Machine(teeId: Address, proxyId: Address, url: string)

  /** A TeeInstructionsSent event. */
  datatype Event = Event(
    instructionId: Word, rewardEpochId: nat, opType: OpType, opCommand: OpCommand,
    cosigners: seq<Address>, cosignersThreshold: nat, message: Bytes, machines: seq<Machine>)

  /** A row of the indexer's log table; event is None when the row cannot be parsed. */
  datatype Log = Log(block: int, index: nat, timestamp: nat, event: Option<Event>)

  /** instruction.Data; fixedMessage and variableMessage are its Additional...Message fields. */
  datatype Data = Data(
    teeId: Address, instructionId: Word, timestamp: nat, rewardEpochId: nat,
    opType: OpType, opCommand: OpCommand, cosigners: seq<Address>, cosignersThreshold: nat,
    originalMessage: Bytes, fixedMessage: Bytes, variableMessage: Bytes)

  datatype FdcRequest = FdcRequest(attestationType: Bytes32, sourceId: Bytes32, rest: Word)

  datatype BackupId = BackupId(
    teeId: Address, walletId: Word, keyId: nat, publicKey: seq<Byte>,
    keyType: Word, signingAlgo: Word, rewardEpochId: nat, randomNonce: Word)

  datatype KeySplit = KeySplit(
    backupId: BackupId, isAdmin: bool, owner: PublicKey, shares: Word, signature: Signature)

  datatype WalletMeta = WalletMeta(backupId: BackupId, rest: Word)

  datatype Shares = Shares(owners: seq<PublicKey>, splits: seq<Bytes>)

  datatype WalletBackup = WalletBackup(meta: WalletMeta, providers: Shares, admins: Shares, seals: Word)

  datatype ProviderRestore = ProviderRestore(teeKey: PublicKey, backupId: BackupId)

  datatype DirectRestore = DirectRestore(sourceTee: Address, backupId: BackupId, backupInstruction: Word)

  datatype SubmissionTag = Threshold | OtherTag(n: nat)

  datatype ActionResult = ActionResult(
    id: Word, tag: SubmissionTag, status: nat, opType: OpType, opCommand: OpCommand, data: Bytes)

  datatype ActionResponse = ActionResponse(result: ActionResult, signature: Signature)

  datatype Envelope = Envelope(payload: Bytes, teeSignature: Signature)

  /** Byte strings: plain octets, or the encoding of a document. */
  datatype Bytes =
    | Raw(octets: seq<Byte>)
    | RequestDoc(request: FdcRequest)
    | ProviderRestoreDoc(providerRestore: ProviderRestore)
    | DirectRestoreDoc(directRestore: DirectRestore)
    | BackupDoc(backup: WalletBackup)
    | MetaDoc(meta: WalletMeta)
    | SplitDoc(split: KeySplit)
    | SplitPairDoc(provider: KeySplit, admin: KeySplit)
    | EnvelopeDoc(envelope: Envelope)
    | PayloadDoc(backupId: BackupId, secret: Word)
    | SignatureBytes(signature: Signature)
    | Cipher(recipient: PublicKey, plain: Bytes)

  datatype Purpose = ActionResultPurpose | KeyDirectBackupPurpose

  datatype Hash =
    | TextHash(inner: Hash)
    | InstructionHash(chainId: nat, data: Data)
    | FdcMessageHash(chainId: nat, request: FdcRequest, body: Bytes, cosigners: seq<Address>,
                     threshold: nat, timestamp: nat)
    | RelayDigest(chainId: nat, message: Hash)
    | SplitHash(chainId: nat, backupId: BackupId, isAdmin: bool, owner: PublicKey, shares: Word)
    | Keccak(preimage: Bytes)
    | ResultHash(result: ActionResult)
    | PayloadHash(purpose: Purpose, chainId: nat, payload: Hash)

  /** By is an ECDSA signature recoverable to a key, WalletSigned one checked against a raw wallet key. */
  datatype Signature = By(key: PublicKey, hash: Hash) | WalletSigned(walletKey: seq<Byte>, hash: Hash) | Garbage(n: nat)

  const EMPTY: Bytes := Raw([])

  /** Slots of the channel from the collector to the router and of the one from there to the sender. */
  const CAPACITY := 50

  /** An ERC-191 version 0x45 signature over `hash` that recovers to `address`. */
  predicate Verifies(address: Address, hash: Hash, signature: Signature) {
    signature.By? && OfKey(signature.key) == address && signature.hash == TextHash(hash)
  }

  /** ECIES decryption: only the recipient's key opens a ciphertext. */
  function Open(key: PublicKey, cipher: Bytes): Option<Bytes> {
    if cipher.Cipher? && cipher.recipient == key then Some(cipher.plain) else None
  }
}
