/** The recipe creation form: an ordered, position-keyed list of ingredient entries
    that the user edits, the image upload path, and the submit procedure that inserts
    the recipe row and then its ingredient rows. */
module RecipeCreate {
  import opened Wrappers
  import opened Text
  import UserContext

  /** A quantity as the form holds it. The model never computes with it. */
  type Quantity = real

  /** One entry of the form's ingredient list. */
  datatype IngredientDraft = IngredientDraft(name: string, quantity: Quantity, unit: string, additionalInfo: string)

  /** The entry the list starts with and that "add ingredient" appends. */
  const Blank := IngredientDraft("", 0.0, "", "")

  /** The keys of an ingredient entry, and the values they hold. */
  datatype Field = NameField | QuantityField | UnitField | AdditionalInfoField
  datatype FieldValue = StringValue(s: string) | NumberValue(q: Quantity)

  /** Every call site passes a number for the quantity and a string for every other key. */
  predicate Fits(field: Field, value: FieldValue) {
    if field == QuantityField then value.NumberValue? else value.StringValue?
  }

  function Get(ing: IngredientDraft, field: Field): (v: FieldValue)
    ensures Fits(field, v)
  {
    match field
    case NameField => StringValue(ing.name)
    case QuantityField => NumberValue(ing.quantity)
    case UnitField => StringValue(ing.unit)
    case AdditionalInfoField => StringValue(ing.additionalInfo)
  }

  /** `{ ...ing, [field]: value }`: the entry with one key replaced and every other key kept. */
  function SetField(ing: IngredientDraft, field: Field, value: FieldValue): (r: IngredientDraft)
    requires Fits(field, value)
    ensures Get(r, field) == value
    ensures forall g :: g != field ==> Get(r, g) == Get(ing, g)
  {
    match field
    case NameField => ing.(name := value.s)
    case QuantityField => ing.(quantity := value.q)
    case UnitField => ing.(unit := value.s)
    case AdditionalInfoField => ing.(additionalInfo := value.s)
  }

  /** Entries that agree on every key are the same entry. */
  lemma {:induction false} SameFieldsSameEntry(a: IngredientDraft, b: IngredientDraft)
    requires forall g :: Get(a, g) == Get(b, g)
    ensures a == b
  {
    assert Get(a, NameField) == Get(b, NameField);
    assert Get(a, QuantityField) == Get(b, QuantityField);
    assert Get(a, UnitField) == Get(b, UnitField);
    assert Get(a, AdditionalInfoField) == Get(b, AdditionalInfoField);
  }

  /** Writing back the value a key already holds leaves the entry as it was. */
  lemma SetFieldToOwnValue(ing: IngredientDraft, field: Field)
    ensures SetField(ing, field, Get(ing, field)) == ing
  {
    SameFieldsSameEntry(SetField(ing, field, Get(ing, field)), ing);
  }

  /** `[...ingredients, blank]`. */
  function WithBlankAppended(list: seq<IngredientDraft>): (r: seq<IngredientDraft>)
    ensures |r| == |list| + 1
    ensures r[..|list|] == list && r[|list|] == Blank
  {
    list + [Blank]
  }

  /** `ingredients.filter((_, i) => i !== index)`: keep every entry whose position is not `index`. */
  function WithoutPosition(list: seq<IngredientDraft>, index: int): (r: seq<IngredientDraft>)
    ensures |r| == if 0 <= index < |list| then |list| - 1 else |list|
    ensures forall x :: x in r ==> x in list
  {
    if list == [] then []
    else (if index == 0 then [] else [list[0]]) + WithoutPosition(list[1..], index - 1)
  }

  /** Removing an in-range position drops exactly that entry: the entries before it stay,
      the entries after it move down by one. */
  lemma {:induction false} RemoveInRange(list: seq<IngredientDraft>, index: int)
    requires 0 <= index < |list|
    ensures WithoutPosition(list, index) == list[..index] + list[index + 1..]
    ensures |WithoutPosition(list, index)| == |list| - 1
  {
    var rest := WithoutPosition(list[1..], index - 1);
    assert WithoutPosition(list, index) == (if index == 0 then [] else [list[0]]) + rest;
    if index > 0 {
      RemoveInRange(list[1..], index - 1);
      calc {
        [list[0]] + rest;
        [list[0]] + (list[1..][..index - 1] + list[1..][index..]);
        { assert [list[0]] + list[1..][..index - 1] == list[..index]; assert list[1..][index..] == list[index + 1..]; }
        list[..index] + list[index + 1..];
      }
    } else {
      RemoveOutOfRange(list[1..], -1);
      assert list[..0] + list[1..] == list[1..];
    }
  }

  /** Removing a position the list does not have keeps every entry. */
  lemma {:induction false} RemoveOutOfRange(list: seq<IngredientDraft>, index: int)
    requires index < 0 || index >= |list|
    ensures WithoutPosition(list, index) == list
  {
    if list != [] {
      RemoveOutOfRange(list[1..], index - 1);
    }
  }

  /** Adding an entry and then removing the last position restores the list. */
  lemma AddThenRemoveRestores(list: seq<IngredientDraft>)
    ensures WithoutPosition(WithBlankAppended(list), |list|) == list
  {
    RemoveInRange(WithBlankAppended(list), |list|);
  }

  /** An ingredient entry tagged with the recipe it belongs to, as inserted into `ingredients`. */
  datatype IngredientInsert = IngredientInsert(name: string, quantity: Quantity, unit: string,
                                               additionalInfo: string, recipeId: string)
  {
    /** The entry without its recipe tag. */
    function Draft(): IngredientDraft {
      IngredientDraft(name, quantity, unit, additionalInfo)
    }
  }

  /** `formattedIngredients`: every entry, in order, with `recipe_id` added. */
  function ForRecipe(list: seq<IngredientDraft>, recipeId: string): (rows: seq<IngredientInsert>)
    ensures |rows| == |list|
    ensures forall k :: 0 <= k < |rows| ==> rows[k].Draft() == list[k] && rows[k].recipeId == recipeId
  {
    seq(|list|, k requires 0 <= k < |list| =>
      IngredientInsert(list[k].name, list[k].quantity, list[k].unit, list[k].additionalInfo, recipeId))
  }

  function Drafts(rows: seq<IngredientInsert>): (list: seq<IngredientDraft>)
    ensures |list| == |rows|
  {
    seq(|rows|, k requires 0 <= k < |rows| => rows[k].Draft())
  }

  /** Dropping the tags again gives back the list the form held. */
  lemma ForRecipeRoundTrip(list: seq<IngredientDraft>, recipeId: string)
    ensures Drafts(ForRecipe(list, recipeId)) == list
  {
    var d := Drafts(ForRecipe(list, recipeId));
    assert forall k :: 0 <= k < |list| ==> d[k] == list[k];
  }

  /** The storage bucket recipe images go into. */
  const Bucket := "recipe-images"

  /** The part of an upload path that comes before the timestamp. */
  function PathPrefix(userId: string): string {
    "recipes/" + userId + "-"
  }

  /** `recipes/${userId}-${Date.now()}-${file.name}`, with the clock reading `now` as input. */
  function UploadPath(userId: string, now: nat, fileName: string): (p: string)
    ensures PathPrefix(userId) <= p
    ensures |p| == |PathPrefix(userId)| + |Decimal(now)| + 1 + |fileName|
    ensures p[|PathPrefix(userId)| + |Decimal(now)|..] == "-" + fileName
  {
    PathPrefix(userId) + Decimal(now) + "-" + fileName
  }

  /** The timestamp can be read back from the path, given the user and the file name. */
  lemma UploadPathTimestamp(userId: string, now: nat, fileName: string)
    ensures var p := UploadPath(userId, now, fileName);
            var stamp := p[|PathPrefix(userId)|..|p| - 1 - |fileName|];
            stamp == Decimal(now) && DecimalValue(stamp) == now
  {
    var p := UploadPath(userId, now, fileName);
    assert p == PathPrefix(userId) + Decimal(now) + ("-" + fileName);
    assert p[|PathPrefix(userId)|..|p| - 1 - |fileName|] == Decimal(now);
    DecimalRoundTrip(now);
  }

  /** Uploads by the same user of the same file name at different times go to different paths. */
  lemma UploadPathsDiffer(userId: string, t1: nat, t2: nat, fileName: string)
    requires t1 != t2
    ensures UploadPath(userId, t1, fileName) != UploadPath(userId, t2, fileName)
  {
    UploadPathTimestamp(userId, t1, fileName);
    UploadPathTimestamp(userId, t2, fileName);
    if UploadPath(userId, t1, fileName) == UploadPath(userId, t2, fileName) {
      DecimalInjective(t1, t2);
    }
  }

  /** `finalImageUrl || null`: the empty string becomes null, any other URL is kept. */
  function NullIfEmpty(url: string): (r: Option<string>)
    ensures r == None <==> url == ""
    ensures r.Some? ==> r.value == url
  {
    if url == "" then None else Some(url)
  }

  /** Reading a normalised URL back with the empty string as default gives the URL itself. */
  lemma NullIfEmptyRoundTrip(url: string)
    ensures NullIfEmpty(url).GetOr("") == url
  {
  }

  /** The file the user picked: its name and its MIME type. */
  datatype ImageFile = ImageFile(name: string, contentType: string)

  const UnknownUploadError := "Unbekannter Upload-Fehler"

  /** The message of the error `uploadRecipeImage` throws for a failed upload. */
  function UploadErrorMessage(message: string): (m: string)
    ensures m != ""
    ensures message != "" ==> m == message
    ensures message == "" ==> m == UnknownUploadError
  {
    if message == "" then UnknownUploadError else message
  }

  /** `uploadRecipeImage`: on success, the public URL of the object stored at the upload path.
      The storage service is an input: `uploadError` is the message of the error its upload
      call reports (if any), and `publicUrlOf` is its path-to-URL mapping. */
  function UploadRecipeImage(file: ImageFile, userId: string, now: nat,
                             uploadError: Option<string>, publicUrlOf: string -> string): (r: Result<string, string>)
    ensures r.Success? <==> uploadError.None?
    ensures r.Success? ==> r.value == publicUrlOf(UploadPath(userId, now, file.name))
    ensures r.Failure? ==> r.error == UploadErrorMessage(uploadError.value)
  {
    match uploadError
    case Some(message) => Failure(UploadErrorMessage(message))
    case None => Success(publicUrlOf(UploadPath(userId, now, file.name)))
  }

  /** The row inserted into `recipes`. */
  datatype RecipeInsert = RecipeInsert(name: string, description: string, servings: int, instructions: string,
                                       categoryId: string, userId: string, imageUrl: Option<string>)

  /** The calls the submit procedure makes on the remote service, in order. */
  datatype Request =
    | Upload(bucket: string, path: string, file: ImageFile)
    | InsertRecipe(row: RecipeInsert)
    | InsertIngredients(rows: seq<IngredientInsert>)

  /** What the user sees when the procedure ends: an alert, or the new recipe's page. */
  datatype Reaction = Alert(message: string) | Navigate(route: string)

  const NotLoggedInMessage := "Benutzer nicht eingeloggt."
  const UploadFailedPrefix := "Bild-Upload fehlgeschlagen: "
  const SaveFailedMessage := "Fehler beim Speichern."

  /** The route of a recipe's detail page. */
  function RecipeRoute(recipeId: string): (route: string)
    ensures "/rezepte/" <= route && route[|"/rezepte/"|..] == recipeId
  {
    "/rezepte/" + recipeId
  }

  /** `user?.id` is present and not empty. */
  predicate LoggedIn(user: Option<UserContext.User>)
    ensures LoggedIn(user) ==> user.Some? && |user.value.id| > 0
    ensures user.Some? && user.value.id != "" ==> LoggedIn(user)
  {
    user.Some? && user.value.id != ""
  }

  /** The state of the creation form: one field per state cell of the page. */
  class RecipeCreateForm {
    var name: string
    var description: string
    var servings: int
    var instructions: string
    var categoryId: string
    var ingredients: seq<IngredientDraft>
    var imageFile: Option<ImageFile>
    var imageUrl: string

    /** The form as the page first renders it: one blank ingredient entry, one serving. */
    constructor ()
      ensures name == "" && description == "" && servings == 1 && instructions == "" && categoryId == ""
      ensures ingredients == [Blank]
      ensures imageFile == None && imageUrl == ""
    {
      name, description, servings, instructions, categoryId := "", "", 1, "", "";
      ingredients := [Blank];
      imageFile, imageUrl := None, "";
    }

    /** `handleIngredientChange`: copy the list, replace one key of the entry at `index`
        in the copy, and make the copy the new list. */
    method HandleIngredientChange(index: nat, field: Field, value: FieldValue)
      requires index < |ingredients| && Fits(field, value)
      modifies this`ingredients
      ensures |ingredients| == |old(ingredients)|
      ensures ingredients[index] == SetField(old(ingredients)[index], field, value)
      ensures forall j :: 0 <= j < |ingredients| && j != index ==> ingredients[j] == old(ingredients)[j]
    {
      var updated := ingredients;
      updated := updated[index := SetField(updated[index], field, value)];
      ingredients := updated;
    }

    /** `addIngredient`. */
    method AddIngredient()
      modifies this`ingredients
      ensures ingredients == WithBlankAppended(old(ingredients))
    {
      ingredients := WithBlankAppended(ingredients);
    }

    /** `removeIngredient`. */
    method RemoveIngredient(index: int)
      modifies this`ingredients
      ensures ingredients == WithoutPosition(old(ingredients), index)
    {
      ingredients := WithoutPosition(ingredients, index);
    }

    /** The image input's change handler: a picked file is kept, and its local preview URL
        (an input here) becomes the image URL; no file changes nothing. */
    method ChooseImage(file: Option<ImageFile>, previewUrl: string)
      modifies this`imageFile, this`imageUrl
      ensures file.Some? ==> imageFile == file && imageUrl == previewUrl
      ensures file.None? ==> imageFile == old(imageFile) && imageUrl == old(imageUrl)
    {
      if file.Some? {
        imageFile := file;
        imageUrl := previewUrl;
      }
    }

    /** `handleSubmit`. The remote service's answers are inputs: `now` is the clock,
        `uploadError` and `publicUrlOf` describe the storage service, and `insertedId`
        is the id of the inserted recipe row (None when the insert reports an error or
        returns no row). Returns the requests made, in order, and the final reaction. */
    method HandleSubmit(user: Option<UserContext.User>, now: nat, uploadError: Option<string>,
                        publicUrlOf: string -> string, insertedId: Option<string>)
      returns (requests: seq<Request>, reaction: Reaction)
      modifies this`imageUrl
      // Without a user id nothing is sent and nothing changes.
      ensures !LoggedIn(user) ==> requests == [] && reaction == Alert(NotLoggedInMessage) && imageUrl == old(imageUrl)
      // With a file, the first request uploads it to the user's path; a failed upload stops there.
      ensures LoggedIn(user) && imageFile.Some? ==>
        && requests != []
        && requests[0] == Upload(Bucket, UploadPath(user.value.id, now, imageFile.value.name), imageFile.value)
        && (uploadError.Some? ==>
              && requests == [requests[0]]
              && reaction == Alert(UploadFailedPrefix + "Error: " + UploadErrorMessage(uploadError.value))
              && imageUrl == old(imageUrl))
        && (uploadError.None? ==> imageUrl == publicUrlOf(UploadPath(user.value.id, now, imageFile.value.name)))
      ensures imageFile.None? ==> imageUrl == old(imageUrl)
      // Otherwise the recipe row is inserted, with the final image URL normalised to null when empty.
      ensures LoggedIn(user) && (imageFile.None? || uploadError.None?) ==>
        var first := if imageFile.Some? then 1 else 0;
        && |requests| > first
        && requests[first] == InsertRecipe(RecipeInsert(name, description, servings, instructions, categoryId,
                                                        user.value.id, NullIfEmpty(imageUrl)))
        && (insertedId.None? ==> |requests| == first + 1 && reaction == Alert(SaveFailedMessage))
        && (insertedId.Some? ==>
              && requests == requests[..first + 1] + [InsertIngredients(ForRecipe(ingredients, insertedId.value))]
              && reaction == Navigate(RecipeRoute(insertedId.value)))
    {
      if !LoggedIn(user) {
        return [], Alert(NotLoggedInMessage);
      }
      var userId := user.value.id;
      var finalImageUrl := imageUrl;
      requests := [];
      if imageFile.Some? {
        var file := imageFile.value;
        requests := [Upload(Bucket, UploadPath(userId, now, file.name), file)];
        var uploaded := UploadRecipeImage(file, userId, now, uploadError, publicUrlOf);
        if uploaded.Failure? {
          return requests, Alert(UploadFailedPrefix + "Error: " + uploaded.error);
        }
        finalImageUrl := uploaded.value;
        imageUrl := finalImageUrl;
      }
      var row := RecipeInsert(name, description, servings, instructions, categoryId, userId, NullIfEmpty(finalImageUrl));
      requests := requests + [InsertRecipe(row)];
      if insertedId.None? {
        return requests, Alert(SaveFailedMessage);
      }
      var recipeId := insertedId.value;
      var formattedIngredients := ForRecipe(ingredients, recipeId);
      requests := requests + [InsertIngredients(formattedIngredients)];
      reaction := Navigate(RecipeRoute(recipeId));
    }
  }
}
