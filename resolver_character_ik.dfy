/**
 * `ResolverCharacterIK`: a saved reference to one IK target of a Studio character. It saves as
 * the text "<scene id>,<IK index>" and resolves that text back through the Studio's object table.
 */
module CharacterIK {
  import opened Wrappers
  import opened NetText

  /** A Studio character (`OCIChar`), known to the model only by its identity. */
  datatype Character = Character(handle: int)

  /** One IK target of a character (`OCIChar.IKInfo`), known only by its identity. */
  datatype IKInfo = IKInfo(handle: int)

  /** An entry of the Studio's object table (`dicObjectCtrl`): a character or some other object. */
  datatype SceneObject = CharacterObject(character: Character) | OtherObject(handle: int)

  /** What `AssignSaveInfo` receives: null, a string, or any other object. */
  datatype SaveData = NullData | StringData(text: string) | OtherData

  /**
   * The character helpers the resolver calls: a character's scene id (`GetCharacterSceneID`), the
   * index of one of its IK targets (`GetCharacterIKIndex`) and the IK target at an index
   * (`GetCharacterIKByIndex`). Their results come from host tables; None stands for null.
   */
  datatype CharacterHelpers = CharacterHelpers(
    sceneId: Option<Character> -> Int32,
    ikIndex: (Option<Character>, Option<IKInfo>) -> Int32,
    ikByIndex: (Option<Character>, Int32) -> Option<IKInfo>)

  /** The save text: the two numbers joined by one comma. */
  function SaveText(sceneId: Int32, ikIndex: Int32): (s: string)
    ensures var parts := Split(s, ',');
            |parts| == 2 && TryParseInt32(parts[0]) == Some(sceneId) && TryParseInt32(parts[1]) == Some(ikIndex)
  {
    SplitPair(Int32ToString(sceneId), Int32ToString(ikIndex), ',');
    ParseFormatted(sceneId);
    ParseFormatted(ikIndex);
    Int32ToString(sceneId) + "," + Int32ToString(ikIndex)
  }

  /**
   * The parse half of `AssignSaveInfo`: a non-empty string that splits on commas into exactly two
   * pieces which both parse as `int`s gives the character id and the IK index.
   */
  function ParseSaveText(data: SaveData): (r: Option<(Int32, Int32)>)
    ensures r.Some? ==> data.StringData? && data.text != "" && Occurrences(data.text, ',') == 1
  {
    if !data.StringData? || data.text == "" then None
    else
      var split := Split(data.text, ',');
      SplitCount(data.text, ',');
      if |split| == 2 then
        match (TryParseInt32(split[0]), TryParseInt32(split[1]))
        case (Some(charId), Some(ikId)) => Some((charId, ikId))
        case _ => None
      else None
  }

  /** What saved text resolves to: the character with that id and its IK target at that index; None leaves the resolver as it was. */
  function Resolve(data: SaveData, studio: Option<map<int, SceneObject>>, helpers: CharacterHelpers): (r: Option<(Character, Option<IKInfo>)>)
    ensures r.Some? ==> ParseSaveText(data).Some? && studio.Some?
    ensures r.Some? ==> var (charId, ikId) := ParseSaveText(data).value;
                        charId as int in studio.value && studio.value[charId as int] == CharacterObject(r.value.0)
                        && r.value.1 == helpers.ikByIndex(Some(r.value.0), ikId)
  {
    match ParseSaveText(data)
    case None => None
    case Some((charId, ikId)) =>
      if studio.None? then None
      else if charId as int in studio.value && studio.value[charId as int].CharacterObject? then
        var character := studio.value[charId as int].character;
        Some((character, helpers.ikByIndex(Some(character), ikId)))
      else None
  }

  /** Saving and then loading into the same scene finds the same character and the IK target at the saved index. */
  lemma SaveThenResolve(c: Character, ik: Option<IKInfo>, objects: map<int, SceneObject>, helpers: CharacterHelpers)
    requires helpers.sceneId(Some(c)) as int in objects && objects[helpers.sceneId(Some(c)) as int] == CharacterObject(c)
    ensures Resolve(StringData(SaveText(helpers.sceneId(Some(c)), helpers.ikIndex(Some(c), ik))), Some(objects), helpers)
            == Some((c, helpers.ikByIndex(Some(c), helpers.ikIndex(Some(c), ik))))
  {
    var text := SaveText(helpers.sceneId(Some(c)), helpers.ikIndex(Some(c), ik));
    assert text != "" by {
      assert 2 <= |Split(text, ',')|;
    }
  }

  /** Text with any number of commas other than one is rejected, "1,2,3" among it. */
  lemma WrongPieceCountRejected(text: string)
    requires Occurrences(text, ',') != 1
    ensures ParseSaveText(StringData(text)) == None
  {
  }

  /** A Studio that is not running, or a table without a character at the id, resolves nothing. */
  lemma MissingCharacterRejected(data: SaveData, studio: Option<map<int, SceneObject>>, helpers: CharacterHelpers)
    requires ParseSaveText(data).Some?
    requires studio.None? || var id := ParseSaveText(data).value.0 as int;
                             id !in studio.value || studio.value[id].OtherObject?
    ensures Resolve(data, studio, helpers) == None
  {
  }

  class ResolverCharacterIK {
    var charInfo: Option<Character>
    var info: Option<IKInfo>

    constructor ()
      ensures charInfo == None && info == None
    {
      charInfo := None;
      info := None;
    }

    /** `GetTarget()`. */
    method GetTarget() returns (ik: Option<IKInfo>)
      ensures ik == info
    {
      ik := info;
    }

    /** `SetTarget(info, ikTarget)`: the resolver now refers to that character's IK target. */
    method SetTarget(character: Option<Character>, ikTarget: Option<IKInfo>)
      modifies this
      ensures charInfo == character && info == ikTarget
    {
      charInfo := character;
      info := ikTarget;
    }

    /** `GetSaveInfo()`: the save text for the current character and IK target. */
    function GetSaveInfo(helpers: CharacterHelpers): (s: string)
      reads this
      ensures var parts := Split(s, ',');
              && |parts| == 2
              && TryParseInt32(parts[0]) == Some(helpers.sceneId(charInfo))
              && TryParseInt32(parts[1]) == Some(helpers.ikIndex(charInfo, info))
    {
      SaveText(helpers.sceneId(charInfo), helpers.ikIndex(charInfo, info))
    }

    /**
     * `AssignSaveInfo(data)` with the Studio's object table supplied (None when the Studio
     * singleton does not exist): on text that resolves, point at the character and its IK target
     * at the saved index; on anything else leave both fields as they were.
     */
    method AssignSaveInfo(data: SaveData, studio: Option<map<int, SceneObject>>, helpers: CharacterHelpers)
      modifies this
      ensures Resolve(data, studio, helpers).None? ==> charInfo == old(charInfo) && info == old(info)
      ensures Resolve(data, studio, helpers).Some? ==>
                charInfo == Some(Resolve(data, studio, helpers).value.0) && info == Resolve(data, studio, helpers).value.1
    {
      if !data.StringData? || data.text == "" {
        return;
      }
      var split := Split(data.text, ',');
      if |split| == 2 && TryParseInt32(split[0]).Some? && TryParseInt32(split[1]).Some? {
        var charId := TryParseInt32(split[0]).value;
        var ikId := TryParseInt32(split[1]).value;
        if studio.None? {
          return;
        }
        if charId as int in studio.value && studio.value[charId as int].CharacterObject? {
          var character := studio.value[charId as int].character;
          charInfo := Some(character);
          info := helpers.ikByIndex(Some(character), ikId);
        }
      }
    }
  }

  /** A resolver whose target was set and saved loads back the same character from a scene that has it under its id. */
  method RoundTrip(c: Character, ik: Option<IKInfo>, objects: map<int, SceneObject>, helpers: CharacterHelpers)
    returns (loaded: ResolverCharacterIK)
    requires helpers.sceneId(Some(c)) as int in objects && objects[helpers.sceneId(Some(c)) as int] == CharacterObject(c)
    ensures loaded.charInfo == Some(c) && loaded.info == helpers.ikByIndex(Some(c), helpers.ikIndex(Some(c), ik))
  {
    var saved := new ResolverCharacterIK();
    saved.SetTarget(Some(c), ik);
    var text := saved.GetSaveInfo(helpers);
    loaded := new ResolverCharacterIK();
    SaveThenResolve(c, ik, objects, helpers);
    loaded.AssignSaveInfo(StringData(text), Some(objects), helpers);
  }
}
