/** The seal that the change of a transfer and its leftovers go to. */
module ChangeSeal {

  import opened Common
  import opened Assignments
  import opened Selection
  import opened Issuance
  import UtxoChoice

  /** All unspent outputs, any of which may host the change, and how many allocations it may have already. */
  datatype Hosts = Hosts(all: seq<LocalUnspent>, maxAllocations: nat)

  datatype Seal = OnBtcChange | OnOutput(utxo: LocalUnspent)

  /** The transaction's own bitcoin change, or else an allocatable output that it does not spend. */
  function SealFor(hosts: Hosts, btcChange: bool, inputs: seq<Outpoint>): Option<Seal>
  {
    if btcChange then Some(OnBtcChange)
    else
      match GetUtxo(hosts.all, inputs, true, hosts.maxAllocations)
      case None => None
      case Some(u) => Some(OnOutput(u))
  }

  /** Outputs that may host the change of a transaction over the inputs. */
  function Spare(hosts: Hosts, inputs: seq<Outpoint>): seq<LocalUnspent>
  {
    GetAvailableAllocations(hosts.all, inputs, hosts.maxAllocations)
  }

  /** A seal is found exactly when the transaction has bitcoin change or some output is to spare. */
  lemma SealFoundIff(hosts: Hosts, btcChange: bool, inputs: seq<Outpoint>)
    ensures SealFor(hosts, btcChange, inputs).Some? <==> btcChange || Spare(hosts, inputs) != []
  {
    UtxoIsAvailable(hosts.all, inputs, true, hosts.maxAllocations);
  }

  /** Change never goes to an output that the transaction spends, nor to one that is full or promised. */
  lemma SealIsSpare(hosts: Hosts, inputs: seq<Outpoint>)
    requires SealFor(hosts, false, inputs).Some?
    ensures var u := SealFor(hosts, false, inputs).value.utxo;
      u.outpoint !in inputs && u.exists_ && !u.pendingWitness
      && Load()(u) <= hosts.maxAllocations && !(exists a | a in u.allocations :: a.Reserves())
  {
    UtxoIsAvailable(hosts.all, inputs, true, hosts.maxAllocations);
    AvailableMember(hosts.all, inputs, hosts.maxAllocations, SealFor(hosts, false, inputs).value.utxo);
  }

  /** Bitcoin change is used if there is any; else, of the spare outputs, one that hosts something arriving already. */
  lemma SealIsPreferred(hosts: Hosts, inputs: seq<Outpoint>)
    ensures SealFor(hosts, true, inputs) == Some(OnBtcChange)
    ensures SealFor(hosts, false, inputs).Some? ==>
      && SealFor(hosts, false, inputs).value.OnOutput?
      && UtxoChoice.WellChosen(SealFor(hosts, false, inputs).value.utxo, true, Spare(hosts, inputs))
  {
    if SealFor(hosts, false, inputs).Some? {
      UtxoChoice.ChosenIsPreferred(hosts.all, inputs, true, hosts.maxAllocations);
    }
  }

  /** One seal: an output is chosen for the first one that needs it and kept for the others. */
  method GetChangeSeal(hosts: Hosts, btcChange: bool, inputs: seq<Outpoint>, chosen: Option<LocalUnspent>)
    returns (seal: Option<Seal>, chosen': Option<LocalUnspent>)
    requires chosen.Some? ==> !btcChange && SealFor(hosts, btcChange, inputs) == Some(OnOutput(chosen.value))
    ensures seal == SealFor(hosts, btcChange, inputs)
    ensures chosen'.Some? ==> !btcChange && seal == Some(OnOutput(chosen'.value))
  {
    if btcChange {
      return Some(OnBtcChange), chosen;
    }
    chosen' := if chosen.Some? then chosen else GetUtxo(hosts.all, inputs, true, hosts.maxAllocations);
    seal := if chosen'.Some? then Some(OnOutput(chosen'.value)) else None;
  }

  /** One seal for each change and each leftover; all are the same, and without any wanted none is looked for. */
  method TakeSeals(hosts: Hosts, btcChange: bool, inputs: seq<Outpoint>, wanted: nat) returns (found: bool)
    ensures found <==> wanted == 0 || SealFor(hosts, btcChange, inputs).Some?
  {
    var chosen: Option<LocalUnspent> := None;
    for i := 0 to wanted
      invariant chosen.Some? ==> !btcChange && SealFor(hosts, btcChange, inputs) == Some(OnOutput(chosen.value))
      invariant i > 0 ==> SealFor(hosts, btcChange, inputs).Some?
    {
      var seal;
      seal, chosen := GetChangeSeal(hosts, btcChange, inputs, chosen);
      if seal.None? {
        return false;
      }
    }
    return true;
  }
}
