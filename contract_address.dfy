/**
 * Resolution of a deployed contract's address from its name and an EIP-155
 * chain identifier (utils/contractAddress.ts). The table is constant; a
 * missing or zero chain id falls back to a default chain that an environment
 * switch selects.
 */
module ContractAddress {
  import opened Options

  /** EIP-155 chain identifiers: JavaScript numbers, of which the integers are modelled. */
  type ChainId = int

  const Rinkeby: ChainId := 4
  const Goerli: ChainId := 5
  const Polygon: ChainId := 137

  /** The three names that the address table has rows for. */
  datatype ContractName = HenkakuErc20 | KamonNFT | HenkakuBadge

  /** One row of the table: the chains a contract is deployed on, with its address there. */
  function Entries(name: ContractName): (m: map<ChainId, string>)
    ensures m.Keys <= {Rinkeby, Goerli, Polygon}
    ensures Goerli in m && Polygon in m
    ensures Rinkeby in m <==> name != HenkakuBadge
  {
    match name
    case HenkakuErc20 =>
      map[Rinkeby := "0x6FDDbe89B90795Eb0652F80fc3dBC2c61e753b1C",
          Goerli := "0x02Dd992774aBCacAD7D46155Da2301854903118D",
          Polygon := "0xd59FFEE93A55F67CeD0F56fa4A991d4c8c8f5C4E"]
    case KamonNFT =>
      map[Rinkeby := "0x9D8b1775CbEE7ae3Cf9dAE3D2CaCBA4986d7df63",
          Goerli := "0x539BCf896f02459dBcB3a2F1D823d2E65DB7211C",
          Polygon := "0xbF6F98CB455C73D389B0fB7Ee314C5058569A1A4"]
    case HenkakuBadge =>
      map[Goerli := "0x6beD9e854eC468373B70a00d864E660b9F224D32",
          Polygon := ""]
  }

  /**
   * The chain used when the caller gives none: Polygon in production,
   * Goerli otherwise. `production` stands for the environment variable.
   */
  function DefaultChainId(production: bool): (c: ChainId)
    ensures c != 0
    ensures forall name: ContractName :: c in Entries(name)
    ensures production ==> c == Polygon
    ensures !production ==> c == Goerli
  {
    if production then Polygon else Goerli
  }

  /** JavaScript truthiness of a `number | undefined` (NaN is not modelled). */
  predicate Truthy(chainId: Option<ChainId>)
    ensures !Truthy(chainId) <==> chainId == None || chainId == Some(0)
  {
    chainId.Some? && chainId.value != 0
  }

  /**
   * `contractAddress[name][chainId || defaultChainID]`: `None` stands for
   * the `undefined` an absent entry reads as.
   */
  function GetContractAddress(name: ContractName, chainId: Option<ChainId>, production: bool): (r: Option<string>)
    ensures Truthy(chainId) ==> (r.Some? <==> chainId.value in Entries(name))
    ensures Truthy(chainId) && r.Some? ==> r.value == Entries(name)[chainId.value]
    ensures !Truthy(chainId) ==> r == Some(Entries(name)[DefaultChainId(production)])
  {
    var chain := if Truthy(chainId) then chainId.value else DefaultChainId(production);
    if chain in Entries(name) then Some(Entries(name)[chain]) else None
  }

  /** A falsy chain id (absent or zero) reads exactly as the default chain would. */
  lemma FalsyChainFallsBack(name: ContractName, chainId: Option<ChainId>, production: bool)
    requires !Truthy(chainId)
    ensures GetContractAddress(name, chainId, production)
         == GetContractAddress(name, Some(DefaultChainId(production)), production)
  {
  }

  /** With no chain id every name resolves, whichever default the environment picks. */
  lemma NoChainIdAlwaysResolves(name: ContractName, production: bool)
    ensures GetContractAddress(name, None, production).Some?
    ensures GetContractAddress(name, Some(0), production).Some?
  {
  }

  /** The badge is not deployed on Rinkeby, and its Polygon entry is empty. */
  lemma BadgeEntries(production: bool)
    ensures GetContractAddress(HenkakuBadge, Some(Rinkeby), production) == None
    ensures GetContractAddress(HenkakuBadge, Some(Polygon), production) == Some("")
    ensures GetContractAddress(HenkakuBadge, Some(Goerli), production).Some?
  {
  }

  /** The token and NFT contracts exist on exactly Rinkeby, Goerli and Polygon. */
  lemma TokenContractsChains(name: ContractName, c: ChainId, production: bool)
    requires name != HenkakuBadge && c != 0
    ensures GetContractAddress(name, Some(c), production).Some? <==> c in {Rinkeby, Goerli, Polygon}
  {
  }
}
