/**
 * data/name-functions.js and its later copy data/name.js: the registry that
 * maps a Twitch channel id to the channel's name, kept in one module-level
 * object. Both files define the same operations with the same bodies; the
 * later one adds `nameIsEmpty`. Here the object is the field of one
 * `NameRegistry`.
 */
module Names {
  import opened Wrappers

  class NameRegistry {
    var nameId: map<string, string>

    constructor()
      ensures nameId == map[]
    {
      nameId := map[];
    }

    /** `hasId` */
    function HasId(id: string): (found: bool)
      reads this
      ensures found <==> id in nameId
    {
      id in nameId
    }

    /** `getName`: the stored name, or `None` (null) for an unknown id. */
    function GetName(id: string): (name: Option<string>)
      reads this
      ensures name.Some? <==> id in nameId
      ensures name.Some? ==> name.value == nameId[id]
    {
      if HasId(id) then Some(nameId[id]) else None
    }

    /** `addName`: inserts a new id and never overwrites a stored name. */
    method AddName(id: string, name: string)
      modifies this
      ensures id in nameId
      ensures id in old(nameId) ==> nameId == old(nameId)
      ensures id !in old(nameId) ==> nameId == old(nameId)[id := name]
    {
      if !HasId(id) {
        nameId := nameId[id := name];
      }
    }

    /** `transferName`: renames a stored id and never adds one. */
    method TransferName(id: string, name: string)
      modifies this
      ensures nameId.Keys == old(nameId.Keys)
      ensures id in old(nameId) ==> nameId == old(nameId)[id := name]
      ensures id !in old(nameId) ==> nameId == old(nameId)
    {
      if HasId(id) {
        nameId := nameId[id := name];
      }
    }

    /** `deleteName`: removes exactly that id, if it is there. */
    method DeleteName(id: string)
      modifies this
      ensures nameId == old(nameId) - {id}
      ensures id !in nameId
    {
      if HasId(id) {
        nameId := nameId - {id};
      }
    }

    /**
     * `loadNameIdData`, with the file's parsed content as the parameter:
     * `None` when reading or parsing fails, which leaves the registry as it is.
     */
    method LoadNameIdData(parsed: Option<map<string, string>>) returns (loaded: Option<map<string, string>>)
      modifies this
      ensures loaded == parsed
      ensures parsed.Some? ==> nameId == parsed.value
      ensures parsed.None? ==> nameId == old(nameId)
    {
      match parsed {
        case Some(data) =>
          nameId := data;
          loaded := Some(nameId);
        case None =>
          loaded := None;
      }
    }

    /** `nameIsEmpty`: no id is registered. */
    function NameIsEmpty(): (empty: bool)
      reads this
      ensures empty <==> forall id :: id !in nameId
    {
      |nameId| == 0
    }
  }
}
