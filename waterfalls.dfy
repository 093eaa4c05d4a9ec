/** The map screen: a list of points of interest ("waterfalls") seeded
    with two fixed records and persisted under `customWaterfalls`, plus
    the add-waterfall form in a modal. */
module Waterfalls {
  import opened Wrappers
  import opened Events
  import opened Store
  import opened Sequences

  /** The text fields of the add-waterfall form. */
  datatype Form = Form(name: string, description: string, latitude: string, longitude: string, image: string)

  const EmptyForm: Form := Form("", "", "", "", "")

  /** Why the form was refused. */
  datatype FormError = RequiredFieldEmpty | CoordinateNotNumber

  /** Host of the seed records' images; the seed strings below are
      concatenations of the app's literals. */
  const BritannicaCdn: string := "https://" + "cdn.britannica.com/"

  /** The initial in-memory list when nothing is stored. */
  function Seed(): (ws: seq<Waterfall>)
    ensures |ws| == 2 && ws[0].id == 1 && ws[1].id == 2
    ensures UniqueIds(ws)
  {
    [ Waterfall(1, "Niagara Falls", "One of the most famous " + "waterfalls in the world.",
        43.0799, -79.0747,
        BritannicaCdn + "41/129941-050-7A7D1027/" + "Niagara-Falls-" + "cities-River-" + "Ontario-New-York.jpg"),
      Waterfall(2, "Angel Falls", "The world's highest " + "uninterrupted waterfall.",
        5.9675, -62.5356,
        BritannicaCdn + "81/155181-050-CE1B56BF/" + "Angel-Falls-" + "waterfall-world-" + "Rio-Churun-Venezuela.jpg") ]
  }

  predicate UniqueIds(ws: seq<Waterfall>) {
    forall i, j :: 0 <= i < j < |ws| ==> ws[i].id != ws[j].id
  }

  /** The guards of `addCustomWaterfall`. `parse` stands for `parseFloat`
      followed by the `isNaN` test: `None` is NaN. The required-field check
      comes first, the coordinate check second. */
  function Validate(form: Form, parse: string -> Option<real>): (r: Result<(real, real), FormError>)
    ensures r == Failure(RequiredFieldEmpty) <==> form.name == "" || form.description == "" || form.image == ""
    ensures r == Failure(CoordinateNotNumber) <==>
      && form.name != "" && form.description != "" && form.image != ""
      && (parse(form.latitude).None? || parse(form.longitude).None?)
    ensures r.Success? ==>
      && parse(form.latitude) == Some(r.value.0)
      && parse(form.longitude) == Some(r.value.1)
  {
    var lat := parse(form.latitude);
    var lon := parse(form.longitude);
    if form.name == "" || form.description == "" || form.image == "" then
      Failure(RequiredFieldEmpty)
    else if lat.None? || lon.None? then
      Failure(CoordinateNotNumber)
    else
      Success((lat.value, lon.value))
  }

  /** The required-field check wins: with an empty required field the form is
      refused the same way whatever the coordinates say. */
  lemma ValidateRequiredFirst(form: Form, p: string -> Option<real>, q: string -> Option<real>)
    requires form.name == "" || form.description == "" || form.image == ""
    ensures Validate(form, p) == Validate(form, q) == Failure(RequiredFieldEmpty)
  {
  }

  /** The outcome depends on the parser only through what it says about the
      two coordinate strings. */
  lemma ValidateParserLocal(form: Form, p: string -> Option<real>, q: string -> Option<real>)
    requires p(form.latitude) == q(form.latitude) && p(form.longitude) == q(form.longitude)
    ensures Validate(form, p) == Validate(form, q)
  {
  }

  /** The form as it is reset after an accepted submission is refused. */
  lemma EmptyFormRefused(parse: string -> Option<real>)
    ensures Validate(EmptyForm, parse) == Failure(RequiredFieldEmpty)
  {
  }

  /** `waterfalls.filter(item => item.id !== id)`. */
  function WithoutId(ws: seq<Waterfall>, id: int): (r: seq<Waterfall>)
    ensures forall w :: w in r <==> w in ws && w.id != id
    ensures forall w :: multiset(r)[w] == if w.id == id then 0 else multiset(ws)[w]
    ensures (forall w :: w in ws ==> w.id != id) ==> r == ws
    ensures UniqueIds(ws) ==> UniqueIds(r)
  {
    var keep := (w: Waterfall) => w.id != id;
    forall w ensures w in Filter(ws, keep) <==> w in ws && w.id != id {
      FilterMembership(ws, keep, w);
    }
    forall w ensures multiset(Filter(ws, keep))[w] == if w.id == id then 0 else multiset(ws)[w] {
      FilterCount(ws, keep, w);
    }
    if (forall w :: w in ws ==> w.id != id) then
      FilterKeepsAll(ws, keep);
      Filter(ws, keep)
    else if UniqueIds(ws) then
      var key := (w: Waterfall) => w.id;
      assert DistinctKeys(ws, key);
      FilterKeepsDistinct(ws, keep, key);
      Filter(ws, keep)
    else
      Filter(ws, keep)
  }

  /** Deleting one id after adding a record with another id equals adding
      the record after deleting. */
  lemma DeleteAfterAddCommutes(ws: seq<Waterfall>, w: Waterfall, id: int)
    requires w.id != id
    ensures WithoutId(ws + [w], id) == WithoutId(ws, id) + [w]
  {
    FilterSnoc(ws, w, (x: Waterfall) => x.id != id);
  }

  /** Deleting the id of a record just added gives the earlier list without
      that id. */
  lemma DeleteAfterAddSame(ws: seq<Waterfall>, w: Waterfall)
    ensures WithoutId(ws + [w], w.id) == WithoutId(ws, w.id)
  {
    FilterSnoc(ws, w, (x: Waterfall) => x.id != w.id);
  }

  /** With a clock that moves forward, an added record keeps ids unique. */
  lemma AddKeepsUniqueIds(ws: seq<Waterfall>, w: Waterfall)
    requires UniqueIds(ws)
    requires forall i :: 0 <= i < |ws| ==> ws[i].id < w.id
    ensures UniqueIds(ws + [w])
  {
  }

  class MapScreen {
    const store: KvStore
    var waterfalls: seq<Waterfall>
    var modalVisible: bool
    var form: Form

    constructor (store: KvStore)
      ensures this.store == store
      ensures waterfalls == Seed() && !modalVisible && form == EmptyForm
    {
      this.store := store;
      waterfalls := Seed();
      modalVisible := false;
      form := EmptyForm;
    }

    /** `loadWaterfalls`: the list is replaced only when the key holds a
        list; an absent key or a failed read keeps it. */
    method LoadWaterfalls(readSucceeds: bool) returns (notice: Notice)
      modifies this
      ensures notice == if readSucceeds then Quiet else LoadFailed
      ensures waterfalls ==
        if readSucceeds && CustomWaterfallsKey in store.data && store.data[CustomWaterfallsKey].WaterfallList?
        then store.data[CustomWaterfallsKey].waterfalls else old(waterfalls)
      ensures modalVisible == old(modalVisible) && form == old(form)
    {
      var r := store.GetItem(CustomWaterfallsKey, readSucceeds);
      notice := Quiet;
      if r.ReadFailed? {
        notice := LoadFailed;
      } else if r.Present? && r.value.WaterfallList? {
        waterfalls := r.value.waterfalls;
      }
    }

    /** `saveWaterfalls`: writes the given list; memory is not touched. */
    method SaveWaterfalls(list: seq<Waterfall>, writeSucceeds: bool) returns (notice: Notice)
      modifies store
      ensures notice == if writeSucceeds then Quiet else SaveFailed
      ensures store.data == if writeSucceeds then old(store.data)[CustomWaterfallsKey := WaterfallList(list)] else old(store.data)
    {
      var ok := store.SetItem(CustomWaterfallsKey, WaterfallList(list), writeSucceeds);
      notice := if ok then Quiet else SaveFailed;
    }

    /** `addCustomWaterfall`, with `now` for `Date.now()`. */
    method AddCustomWaterfall(now: int, parse: string -> Option<real>, saveSucceeds: bool) returns (notice: Notice)
      modifies this, store
      // refused: list, store, modal and form all stay as they were
      ensures Validate(old(form), parse).Failure? ==>
        && notice == (if Validate(old(form), parse).error == RequiredFieldEmpty then MissingFields else InvalidCoordinates)
        && unchanged(this) && unchanged(store)
      // accepted: one record appended, modal closed, form cleared
      ensures Validate(old(form), parse).Success? ==>
        var coords := Validate(old(form), parse).value;
        && waterfalls == old(waterfalls) + [Waterfall(now, old(form).name, old(form).description, coords.0, coords.1, old(form).image)]
        && !modalVisible && form == EmptyForm
        && notice == (if saveSucceeds then Quiet else SaveFailed)
        && store.data == if saveSucceeds then old(store.data)[CustomWaterfallsKey := WaterfallList(waterfalls)] else old(store.data)
    {
      var checked := Validate(form, parse);
      if checked.Failure? {
        notice := if checked.error == RequiredFieldEmpty then MissingFields else InvalidCoordinates;
        return;
      }
      var (lat, lon) := checked.value;
      var updated := waterfalls + [Waterfall(now, form.name, form.description, lat, lon, form.image)];
      waterfalls := updated;
      notice := SaveWaterfalls(updated, saveSucceeds);
      modalVisible := false;
      form := EmptyForm;
    }

    /** The confirmed branch of `deleteWaterfall`. */
    method DeleteWaterfall(id: int, saveSucceeds: bool) returns (notice: Notice)
      modifies this, store
      ensures waterfalls == WithoutId(old(waterfalls), id)
      ensures modalVisible == old(modalVisible) && form == old(form)
      ensures notice == if saveSucceeds then Quiet else SaveFailed
      ensures store.data == if saveSucceeds then old(store.data)[CustomWaterfallsKey := WaterfallList(waterfalls)] else old(store.data)
    {
      var updated := WithoutId(waterfalls, id);
      waterfalls := updated;
      notice := SaveWaterfalls(updated, saveSucceeds);
    }

    /** `selectImage`: only the form's image field changes, and only when
        an image was picked. */
    method SelectImage(pick: Pick) returns (notice: Notice)
      modifies this
      ensures waterfalls == old(waterfalls) && modalVisible == old(modalVisible)
      ensures form == if pick.Picked? then old(form).(image := pick.uri) else old(form)
      ensures notice == if pick.PickFailed? then PickerError else Quiet
    {
      notice := Quiet;
      match pick
      case Picked(uri) =>
        form := form.(image := uri);
      case Cancelled =>
      case PickFailed =>
        notice := PickerError;
    }
  }
}
