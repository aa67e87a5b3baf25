/** The emergency screen's two pieces of state: the live-location switch and the
    on/off switches of the trusted contacts. */
module Emergency {

  datatype Contact = Contact(name: string, phone: string, active: bool)

  const InitialContacts: seq<Contact> := [
    Contact("Papa", "+91 82349 42151", true),
    Contact("Mummy", "+91 82349 42151", true),
    Contact("Didi", "+91 82349 42151", false)
  ]

  /** The contact list after the switch of contact `index` is set to `checked`: that
      contact's flag is `checked`, and length, order, names, phones and every other flag
      are as before. */
  function WithActive(contacts: seq<Contact>, index: nat, checked: bool): (r: seq<Contact>)
    requires index < |contacts|
    ensures |r| == |contacts|
    ensures r[index].active == checked
    ensures forall j :: 0 <= j < |r| ==>
      r[j].name == contacts[j].name && r[j].phone == contacts[j].phone
      && (j != index ==> r[j] == contacts[j])
  {
    contacts[index := contacts[index].(active := checked)]
  }

  /** Setting a switch to the value it already has changes nothing; so setting the same
      value twice is setting it once. */
  lemma {:induction false} WithActiveIdempotent(contacts: seq<Contact>, index: nat, checked: bool)
    requires index < |contacts|
    ensures WithActive(WithActive(contacts, index, checked), index, checked)
            == WithActive(contacts, index, checked)
    ensures contacts[index].active == checked ==> WithActive(contacts, index, checked) == contacts
  {
    var once := WithActive(contacts, index, checked);
    assert once[index] == once[index].(active := checked);
  }

  /** The number of active contacts. */
  function ActiveCount(contacts: seq<Contact>): nat {
    if contacts == [] then 0
    else ActiveCount(contacts[..|contacts| - 1]) + (if contacts[|contacts| - 1].active then 1 else 0)
  }

  /** A switch moves the number of active contacts by exactly the change of its own flag. */
  lemma {:induction false} ActiveCountAfterToggle(contacts: seq<Contact>, index: nat, checked: bool)
    requires index < |contacts|
    ensures ActiveCount(WithActive(contacts, index, checked))
            == ActiveCount(contacts) - (if contacts[index].active then 1 else 0) + (if checked then 1 else 0)
    decreases |contacts|
  {
    var r := WithActive(contacts, index, checked);
    var n := |contacts|;
    if index < n - 1 {
      assert r[..n - 1] == WithActive(contacts[..n - 1], index, checked);
      ActiveCountAfterToggle(contacts[..n - 1], index, checked);
    } else {
      assert r[..n - 1] == contacts[..n - 1];
    }
  }

  class EmergencyFeatures {
    var locationSharing: bool
    var trustedContacts: array<Contact>

    constructor ()
      ensures !locationSharing && trustedContacts[..] == InitialContacts
      ensures fresh(trustedContacts)
    {
      locationSharing := false;
      trustedContacts := new Contact[|InitialContacts|](i requires 0 <= i < |InitialContacts| => InitialContacts[i]);
    }

    /** The switch beside contact `index` (the list renders one per contact). */
    method ToggleContact(index: nat, checked: bool)
      requires index < trustedContacts.Length
      modifies trustedContacts
      ensures trustedContacts[..] == WithActive(old(trustedContacts[..]), index, checked)
    {
      trustedContacts[index] := trustedContacts[index].(active := checked);
    }

    /** The live-location switch; the contacts are not touched. */
    method SetLocationSharing(checked: bool)
      modifies this`locationSharing
      ensures locationSharing == checked
      ensures trustedContacts[..] == old(trustedContacts[..])
    {
      locationSharing := checked;
    }
  }
}
