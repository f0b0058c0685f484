/** The ledger vocabulary shared by the whole model: machine integers, `ScVal`s, ledger keys and
    entries. Keys and entries carry exactly the fields that the modelled code reads or writes;
    everything else in them is an opaque `rest`. */
module Ledger {
  import opened Wrappers

  type U32 = n: int | 0 <= n < 0x1_0000_0000
  type U64 = n: int | 0 <= n < 0x1_0000_0000_0000_0000
  type I64 = n: int | -0x8000_0000_0000_0000 <= n < 0x8000_0000_0000_0000
  type Byte = n: int | 0 <= n < 256
  type Bytes32 = s: seq<Byte> | |s| == 32 witness seq(32, _ => 0)

  type AccountId = Bytes32
  type ContractId = Bytes32
  type Hash = Bytes32

  /** `wrapping_add` and the `<<` of Rust on `i64`: reduce into the signed 64-bit range. */
  function WrapI64(n: int): (r: I64)
    ensures (r - n) % 0x1_0000_0000_0000_0000 == 0
  {
    (n + 0x8000_0000_0000_0000) % 0x1_0000_0000_0000_0000 - 0x8000_0000_0000_0000
  }

  function SaturatingAddU32(a: U32, b: U32): U32 {
    if a + b < 0x1_0000_0000 then a + b else 0xFFFF_FFFF
  }

  function SaturatingAddU64(a: U64, b: U64): U64 {
    if a + b < 0x1_0000_0000_0000_0000 then a + b else 0xFFFF_FFFF_FFFF_FFFF
  }

  // ---- values ----

  /** Symbol bytes, split by whether `str::from_utf8` accepts them. */
  datatype SymbolText = Utf8(text: string) | NotUtf8(raw: seq<Byte>)

  datatype ScAddress = AccountAddress(account: AccountId) | ContractAddress(contract: ContractId)

  datatype Executable = Wasm(hash: Hash) | StellarAsset

  datatype ScVal =
    | Void
    | Vec(items: seq<ScVal>)  // ScVal::Vec(Some(items))
    | VecNone                // ScVal::Vec(None)
    | Symbol(symbol: SymbolText)
    | Bytes(raw: seq<Byte>)
    | I128(hi: I64, lo: U64)
    | Address(address: ScAddress)
    | LedgerKeyContractInstance
    | ContractInstance(executable: Executable, storage: Option<seq<(ScVal, ScVal)>>)
    | OtherVal(tag: nat)

  // ---- keys and entries ----

  datatype Durability = Temporary | Persistent

  datatype TrustLineAsset =
    | CreditAlphanum4(code4: seq<Byte>, issuer: AccountId)
    | CreditAlphanum12(code12: seq<Byte>, issuer: AccountId)
    | OtherAsset(id: nat)

  datatype LedgerKey =
    | AccountKey(account: AccountId)
    | TrustlineKey(account: AccountId, asset: TrustLineAsset)
    | ContractDataKey(contract: ContractId, key: ScVal, durability: Durability)
    | ContractCodeKey(hash: Hash)
    | ConfigSettingKey(setting: nat)
    | OtherKey(id: nat)

  /** The account fields no handler interprets, kept so that "preserved" is a statement about them. */
  datatype AccountRest = AccountRest(numSubEntries: U32, flags: U32, thresholds: seq<Byte>, others: nat)

  datatype AccountEntry = AccountEntry(accountId: AccountId, balance: I64, seqNum: I64, rest: AccountRest)

  datatype TrustLineEntry =
    TrustLineEntry(accountId: AccountId, asset: TrustLineAsset, balance: I64, limit: I64, flags: U32, ext: nat)

  datatype EntryData =
    | Account(account: AccountEntry)
    | Trustline(trustline: TrustLineEntry)
    | ContractData(contract: ContractId, key: ScVal, durability: Durability, val: ScVal)
    | ContractCode(hash: Hash, code: seq<Byte>)
    | ConfigSetting(setting: nat, payload: int)
    | OtherData(id: nat)

  datatype LedgerEntry = LedgerEntry(lastModified: U32, data: EntryData, ext: nat)

  /** An entry with its live-until hint, as `SnapshotSource::get` hands it out. */
  datatype Stored = Stored(entry: LedgerEntry, liveUntil: Option<U32>)

  /** The ledger as a reader sees it: every present key with its entry. */
  type LedgerView = map<LedgerKey, Stored>

  function LookupIn(view: LedgerView, key: LedgerKey): Option<Stored> {
    if key in view then Some(view[key]) else None
  }

  // ---- the XDR codec, an opaque injective encoding ----

  datatype Xdr = Xdr(content: LedgerEntry)

  function EncodeEntry(entry: LedgerEntry): Xdr { Xdr(entry) }

  function DecodeEntry(bytes: Xdr): LedgerEntry { bytes.content }
}
