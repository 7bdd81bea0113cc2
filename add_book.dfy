/**
 * The "list a book" form (src/pages/AddBook.tsx): a record of text fields
 * updated one field at a time, and a photo buffer of at most five images.
 */
module AddBook {
  import opened Optional
  import opened Text

  /** The most photos a listing may carry. */
  const MaxImages: nat := 5

  /** The fields the form starts with; every one but the contact method is empty. */
  const InitialForm: map<string, string> := map[
    "title" := "", "author" := "", "isbn" := "", "course" := "", "category" := "",
    "condition" := "", "listingType" := "", "price" := "", "description" := "",
    "location" := "", "contactMethod" := "platform"]

  /** A field's value; a field the form does not hold reads as empty (falsy). */
  function Field(form: map<string, string>, name: string): string {
    if name in form then form[name] else ""
  }

  /** The submit button is disabled while saving or while a required field is empty. */
  predicate SubmitDisabled(form: map<string, string>, isLoading: bool) {
    isLoading || Field(form, "title") == "" || Field(form, "author") == ""
    || Field(form, "condition") == "" || Field(form, "listingType") == ""
  }

  /**
   * The browser refuses to submit while a `required` input is empty: the
   * location always, and the price when it is shown (listings for sale).
   */
  predicate RequiredFieldMissing(form: map<string, string>) {
    Field(form, "location") == "" || (PriceFieldShown(form) && Field(form, "price") == "")
  }

  /**
   * The price is required only for a listing for sale; the fresh form is
   * refused because its location is empty.
   */
  lemma RequiredFieldsRule(form: map<string, string>)
    ensures Field(form, "listingType") != "sell" ==> (RequiredFieldMissing(form) <==> Field(form, "location") == "")
    ensures Field(form, "listingType") == "sell" ==>
      (RequiredFieldMissing(form) <==> Field(form, "location") == "" || Field(form, "price") == "")
    ensures RequiredFieldMissing(InitialForm)
  {
  }

  /** Neither the category nor the price decides whether the submit button is disabled. */
  lemma SubmitIgnoresCategoryAndPrice(form: map<string, string>, isLoading: bool, category: string, price: string)
    ensures SubmitDisabled(form["category" := category]["price" := price], isLoading) == SubmitDisabled(form, isLoading)
  {
  }

  /** The placeholder address for the `n`-th file of a batch (1-based). */
  function Placeholder(n: nat): string {
    "https://via.placeholder.com/200x250?text=Book" + NatToString(n)
  }

  /** One placeholder per selected file, numbered 1, 2, ... within the batch. */
  function PlaceholdersFor(fileCount: nat): (r: seq<string>)
    ensures |r| == fileCount
    ensures forall i :: 0 <= i < fileCount ==> r[i] == Placeholder(i + 1)
  {
    seq(fileCount, i requires 0 <= i < fileCount => Placeholder(i + 1))
  }

  /** A batch yields one placeholder per file, and they are pairwise distinct. */
  lemma PlaceholdersDistinct(fileCount: nat, i: nat, j: nat)
    requires i < j < fileCount
    ensures |PlaceholdersFor(fileCount)| == fileCount
    ensures PlaceholdersFor(fileCount)[i] != PlaceholdersFor(fileCount)[j]
  {
    var p, q := Placeholder(i + 1), Placeholder(j + 1);
    var prefix := "https://via.placeholder.com/200x250?text=Book";
    if p == q {
      assert p[|prefix|..] == NatToString(i + 1);
      assert q[|prefix|..] == NatToString(j + 1);
      ParseNatToString(i + 1);
      ParseNatToString(j + 1);
    }
  }

  /** The buffer after a batch arrives: old photos, then new ones, cut to the first five. */
  function AddImages(images: seq<string>, added: seq<string>): (r: seq<string>)
    ensures |r| == if |images| + |added| < MaxImages then |images| + |added| else MaxImages
    ensures r <= images + added
  {
    var all := images + added;
    if |all| <= MaxImages then all else all[..MaxImages]
  }

  /** Photos already held are never displaced by a new batch while there is room for them. */
  lemma AddImagesKeepsExisting(images: seq<string>, added: seq<string>)
    requires |images| <= MaxImages
    ensures AddImages(images, added)[..|images|] == images
  {
  }

  /** `prev.filter((_, i) => i !== index)`: the photo at `index` goes, the rest keep their order. */
  function RemoveAt(images: seq<string>, index: int): (r: seq<string>)
    ensures 0 <= index < |images| ==> |r| == |images| - 1
    ensures !(0 <= index < |images|) ==> r == images
  {
    if 0 <= index < |images| then images[..index] + images[index + 1..] else images
  }

  /** Removing a photo keeps the ones before it in place and moves the later ones down by one. */
  lemma RemoveAtShifts(images: seq<string>, index: int, i: int)
    requires 0 <= index < |images| && 0 <= i < |images| - 1
    ensures RemoveAt(images, index)[i] == if i < index then images[i] else images[i + 1]
  {
  }

  /** The add-photo tile's test: fewer than five photos held. */
  predicate HasRoom(images: seq<string>) {
    |images| < MaxImages
  }

  /**
   * A batch of `n` files closes the add-photo tile exactly when it brings the
   * total to five or more; removing any photo from a full buffer reopens it.
   */
  lemma PhotoTileRule(images: seq<string>, n: nat, index: int)
    requires |images| <= MaxImages
    ensures !HasRoom(AddImages(images, PlaceholdersFor(n))) <==> |images| + n >= MaxImages
    ensures |images| == MaxImages && 0 <= index < |images| ==> HasRoom(RemoveAt(images, index))
  {
  }

  /** The price input's test: the listing is for sale. */
  predicate PriceFieldShown(form: map<string, string>) {
    Field(form, "listingType") == "sell"
  }

  /**
   * Choosing a listing type shows the price input exactly when the choice is
   * "sell"; editing any other field leaves it as it was.
   */
  lemma PriceFieldRule(form: map<string, string>, field: string, value: string)
    ensures field == "listingType" ==> (PriceFieldShown(form[field := value]) <==> value == "sell")
    ensures field != "listingType" ==> PriceFieldShown(form[field := value]) == PriceFieldShown(form)
    ensures !PriceFieldShown(InitialForm)
  {
  }

  /** The form's state. */
  class ListingForm {
    var formData: map<string, string>
    var images: seq<string>
    var isLoading: bool

    ghost predicate Valid()
      reads this
    {
      |images| <= MaxImages && InitialForm.Keys <= formData.Keys
    }

    constructor ()
      ensures Valid() && formData == InitialForm && images == [] && !isLoading
    {
      formData, images, isLoading := InitialForm, [], false;
    }

    /** `handleInputChange(field, value)`: that field takes the value, every other keeps its own. */
    method SetField(field: string, value: string)
      requires Valid()
      modifies this`formData
      ensures Valid() && formData == old(formData)[field := value]
      ensures Field(formData, field) == value
      ensures forall f :: f != field ==> Field(formData, f) == Field(old(formData), f)
    {
      formData := formData[field := value];
    }

    /** `handleImageUpload`: a batch of `files` files (None when the input has no file list). */
    method UploadImages(files: Option<nat>)
      requires Valid()
      modifies this`images
      ensures Valid()
      ensures images == if files.Some? then AddImages(old(images), PlaceholdersFor(files.value)) else old(images)
    {
      if files.Some? {
        var newImages := PlaceholdersFor(files.value);
        images := AddImages(images, newImages);
      }
    }

    /** The remove button on the photo at `index`. */
    method RemoveImage(index: int)
      requires Valid()
      modifies this`images
      ensures Valid() && images == RemoveAt(old(images), index)
    {
      images := RemoveAt(images, index);
    }

    /** The add-photo tile is offered only while there is room for another photo. */
    predicate CanAddPhoto()
      reads this
    {
      HasRoom(images)
    }

    /** The price input is shown only for listings that are for sale. */
    predicate ShowsPriceField()
      reads this
    {
      PriceFieldShown(formData)
    }

    /**
     * `handleSubmit`: the simulated save starts. The handler has no guard of
     * its own; the submit button is disabled by `SubmitDisabled`, which blocks
     * both the click and submitting with the Enter key.
     */
    method Submit()
      requires Valid() && !SubmitDisabled(formData, isLoading)
      requires !RequiredFieldMissing(formData)
      modifies this`isLoading
      ensures Valid() && isLoading && !old(isLoading)
    {
      isLoading := true;
    }

    /** The save timer fires: loading ends and the app moves to the user's books. */
    method CompleteSubmit() returns (navigateTo: string)
      requires Valid()
      modifies this`isLoading
      ensures Valid() && !isLoading && navigateTo == "my-books"
    {
      isLoading := false;
      navigateTo := "my-books";
    }
  }
}
