/** The static knowledge catalog `SUI_BLOCKCHAIN_INFO` (app/data/sui_info.py).
    The canned texts themselves are not modelled: each body is an opaque,
    non-empty placeholder naming its key and its lines, so distinct bodies
    are distinct strings. */
module SuiInfo {

  const WhatIsSui := "<what_is_sui: lines 11-27>"
  const SuiToken := "<sui_token: lines 29-41>"
  const SuiArchitecture := "<sui_architecture: lines 43-63>"
  const MoveLanguage := "<move_language: lines 65-83>"
  /** The first body given for "sui_objects"; the dict display overwrites it. */
  const SuiObjectsOverwritten := "<sui_objects: lines 85-107>"
  const SuiTransactions := "<sui_transactions: lines 109-133>"
  const SuiConsensus := "<sui_consensus: lines 135-161>"
  const SuiStorage := "<sui_storage: lines 163-184>"
  const SuiSmartContracts := "<sui_smart_contracts: lines 186-218>"
  const SuiEpochs := "<sui_epochs: lines 220-250>"
  /** The second body given for "sui_objects", the one the dict keeps. */
  const SuiObjects := "<sui_objects: lines 252-287>"
  const MoveSmartContracts := "<move_smart_contracts: lines 289-325>"
  const WhatIsBlockchain := "<what_is_blockchain: lines 327-359>"
  const TypesOfBlockchain := "<types_of_blockchain: lines 361-397>"
  const DistributedLedger := "<distributed_ledger: lines 399-435>"
  const ProofOfWork := "<proof_of_work: lines 437-481>"
  const SuiBlockchainType := "<sui_blockchain_type: lines 483-526>"
  const BlockchainConsensus := "<blockchain_consensus: lines 528-582>"
  const BlockchainSecurity := "<blockchain_security: lines 584-621>"

  /** The dict display as Python evaluates it: entries are inserted left to
      right, so the repeated key "sui_objects" ends up with the later body
      while keeping a single entry. */
  const SuiBlockchainInfo: map<string, string> :=
    map[]
      ["what_is_sui" := WhatIsSui]
      ["sui_token" := SuiToken]
      ["sui_architecture" := SuiArchitecture]
      ["move_language" := MoveLanguage]
      ["sui_objects" := SuiObjectsOverwritten]
      ["sui_transactions" := SuiTransactions]
      ["sui_consensus" := SuiConsensus]
      ["sui_storage" := SuiStorage]
      ["sui_smart_contracts" := SuiSmartContracts]
      ["sui_epochs" := SuiEpochs]
      ["sui_objects" := SuiObjects]
      ["move_smart_contracts" := MoveSmartContracts]
      ["what_is_blockchain" := WhatIsBlockchain]
      ["types_of_blockchain" := TypesOfBlockchain]
      ["distributed_ledger" := DistributedLedger]
      ["proof_of_work" := ProofOfWork]
      ["sui_blockchain_type" := SuiBlockchainType]
      ["blockchain_consensus" := BlockchainConsensus]
      ["blockchain_security" := BlockchainSecurity]

  /** The eighteen distinct keys of the catalog. */
  const CatalogKeys: set<string> := {
    "what_is_sui", "sui_token", "sui_architecture", "move_language", "sui_objects",
    "sui_transactions", "sui_consensus", "sui_storage", "sui_smart_contracts",
    "sui_epochs", "move_smart_contracts", "what_is_blockchain", "types_of_blockchain",
    "distributed_ledger", "proof_of_work", "sui_blockchain_type",
    "blockchain_consensus", "blockchain_security"
  }

  /** The catalog holds exactly the eighteen keys: the repeated key does not
      add a second entry. */
  lemma CatalogHasEighteenKeys()
    ensures SuiBlockchainInfo.Keys == CatalogKeys
  {
  }

  /** The repeated key keeps the later of its two bodies. */
  lemma SuiObjectsKeepsLaterBody()
    ensures SuiBlockchainInfo["sui_objects"] == SuiObjects
    ensures SuiObjectsOverwritten !in SuiBlockchainInfo.Values
  {
    assert SuiObjectsOverwritten !in SuiBlockchainInfo.Values by {
      forall k | k in SuiBlockchainInfo ensures SuiBlockchainInfo[k] != SuiObjectsOverwritten {
      }
    }
  }

  /** Every body is a non-empty string, so a catalog hit is always truthy. */
  lemma CatalogBodiesNonEmpty(key: string)
    requires key in SuiBlockchainInfo
    ensures SuiBlockchainInfo[key] != ""
  {
  }

  /** No two keys share a body. */
  lemma CatalogBodiesDistinct(k1: string, k2: string)
    requires k1 in SuiBlockchainInfo && k2 in SuiBlockchainInfo && k1 != k2
    ensures SuiBlockchainInfo[k1] != SuiBlockchainInfo[k2]
  {
  }
}
