/** How the "Explain Contract" input is classified: an on-chain address, or
    literal Solidity source passed through unchanged. */
module Identifier {
  import opened Text

  const AddressPrefix: string := "0x"
  const AddressLength: nat := 42

  /** The identifier after classification. Both variants keep the text the user typed. */
  datatype ContractIdentifier = Address(address: string) | RawSource(source: string)
  {
    /** The text the identifier was classified from. */
    function Text(): string
    {
      match this
      case Address(a) => a
      case RawSource(s) => s
    }
  }

  /** `s.startswith("0x") and len(s) == 42`. */
  predicate IsAddressShaped(s: string)
  {
    StartsWith(s, AddressPrefix) && |s| == AddressLength
  }

  /** The branch that decides whether to ask the explorer. Total: no string is refused. */
  function Classify(s: string): (id: ContractIdentifier)
    ensures id.Address? <==> (|s| == 42 && s[0] == '0' && s[1] == 'x')
    ensures id.Text() == s
  {
    if IsAddressShaped(s) then Address(s) else RawSource(s)
  }

  /** Strings that are not address-shaped come back as raw source, verbatim:
      the upper-case prefix "0X", the right length without the prefix, and the empty string among them. */
  lemma NotAddressPassesThrough(s: string)
    requires |s| != 42 || !StartsWith(s, "0x")
    ensures Classify(s) == RawSource(s)
  {
  }

  /** An upper-case "0X" prefix is not the address prefix. */
  lemma UpperCasePrefixIsSource(s: string)
    requires StartsWith(s, "0X")
    ensures Classify(s) == RawSource(s)
  {
  }
}
