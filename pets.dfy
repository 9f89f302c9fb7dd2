/** The pets page: the list of pets, and the form that adds a pet or edits one. */
module Pets {
  import opened Wrappers
  import opened Seqs
  import opened Entities

  /** No two pets in the list share an `Id`. */
  predicate DistinctPetIds(pets: seq<Pet>) {
    forall i, j :: 0 <= i < j < |pets| ==> pets[i].id != pets[j].id
  }

  /** Saving an edit puts the saved pet where the edited one was and leaves every other pet in place; when
      the saved pet keeps the edited `Id`, the list keeps its `Id`s, and so stays free of duplicates. */
  lemma EditReplacesOnlyTheEditedPet(pets: seq<Pet>, id: int, saved: Pet)
    requires saved.id == id
    ensures |ReplaceWhere(pets, PetIdIs(id), saved)| == |pets|
    ensures forall i :: 0 <= i < |pets| ==> ReplaceWhere(pets, PetIdIs(id), saved)[i].id == pets[i].id
    ensures forall i :: 0 <= i < |pets| && pets[i].id != id ==> ReplaceWhere(pets, PetIdIs(id), saved)[i] == pets[i]
    ensures (exists i :: 0 <= i < |pets| && pets[i].id == id) ==> saved in ReplaceWhere(pets, PetIdIs(id), saved)
    ensures DistinctPetIds(pets) ==> DistinctPetIds(ReplaceWhere(pets, PetIdIs(id), saved))
  {
    var r := ReplaceWhere(pets, PetIdIs(id), saved);
    if exists i :: 0 <= i < |pets| && pets[i].id == id {
      var i :| 0 <= i < |pets| && pets[i].id == id;
      assert r[i] == saved;
    }
  }

  /** Adding a pet whose `Id` is new keeps the `Id`s distinct. */
  lemma AddKeepsIdsDistinct(pets: seq<Pet>, saved: Pet)
    requires DistinctPetIds(pets)
    requires forall p :: p in pets ==> p.id != saved.id
    ensures DistinctPetIds(pets + [saved])
  {
    var r := pets + [saved];
    forall i, j | 0 <= i < j < |r| ensures r[i].id != r[j].id {
      if j == |pets| {
        assert r[i] in pets;
      }
    }
  }

  class PetsPage {
    var pets: seq<Pet>
    var error: string
    var showForm: bool
    var editingPet: Option<Pet>

    /** The page before its first load: no pets, no error, the list shown. */
    constructor()
      ensures pets == [] && error == "" && !showForm && editingPet == None
    {
      pets := [];
      error := "";
      showForm := false;
      editingPet := None;
    }

    /** `loadPets`: `fetched` is what `getAll` settled to. The error is cleared first; a failure keeps the
        pets already shown. */
    method LoadPets(fetched: Result<seq<Pet>>)
      modifies this`pets, this`error
      ensures fetched.Ok? ==> pets == fetched.value && error == ""
      ensures fetched.Err? ==> pets == old(pets) && error == "Failed to load pets"
    {
      error := "";
      if fetched.Ok? {
        pets := fetched.value;
      } else {
        error := "Failed to load pets";
      }
    }

    /** `handleAddPet`: an empty form. */
    method HandleAddPet()
      modifies this`showForm, this`editingPet
      ensures showForm && editingPet == None
    {
      editingPet := None;
      showForm := true;
    }

    /** `handleEditPet`: the form prefilled from `pet`. */
    method HandleEditPet(pet: Pet)
      modifies this`showForm, this`editingPet
      ensures showForm && editingPet == Some(pet)
    {
      editingPet := Some(pet);
      showForm := true;
    }

    /** `handleSubmitPet`. `saved` is what the service call settled to: `update(editingPet.Id, data)`
        while editing, `create(data)` otherwise. On success the saved pet replaces every entry with the
        edited `Id`, or is appended, and the form closes; on failure nothing changes. */
    method HandleSubmitPet(saved: Result<Pet>)
      modifies this`pets, this`showForm, this`editingPet
      ensures saved.Err? ==> pets == old(pets) && showForm == old(showForm) && editingPet == old(editingPet)
      ensures saved.Ok? ==> !showForm && editingPet == None
      ensures saved.Ok? && old(editingPet).Some? ==>
        pets == ReplaceWhere(old(pets), PetIdIs(old(editingPet).value.id), saved.value)
      ensures saved.Ok? && old(editingPet).None? ==> pets == old(pets) + [saved.value]
    {
      if saved.Ok? {
        if editingPet.Some? {
          pets := ReplaceWhere(pets, PetIdIs(editingPet.value.id), saved.value);
        } else {
          pets := pets + [saved.value];
        }
        showForm := false;
        editingPet := None;
      }
    }

    /** `handleCancel`: back to the list, nothing edited. */
    method HandleCancel()
      modifies this`showForm, this`editingPet
      ensures !showForm && editingPet == None
    {
      showForm := false;
      editingPet := None;
    }
  }
}
