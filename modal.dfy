/**
 * The form dialog every page opens: it fills its form data from the fields'
 * initial and default values, updates one field per change event, hands the
 * data to the page on submit, and can reset every field to its default. The
 * colour of each field and the beginner's hint under it are looked up by
 * index and by name.
 */
module Modal {
  import opened Common
  import opened Values
  import Text

  /** A form field: its key in the form data, its input type and its `defaultValue`. */
  datatype Field = Field(name: string, inputType: string, defaultValue: Value)

  predicate Nullish(v: Value)
  {
    v.Undefined? || v.Null?
  }

  /**
   * `initialValues?.[name] ?? defaultValue ?? ''`: a given value wins, even
   * 0 or the empty string; a missing one falls back to the default and then
   * to the empty string.
   */
  function InitialValue(f: Field, initialValues: Option<Obj>): (v: Value)
    ensures !Nullish(v)
    ensures initialValues.Some? && !Nullish(Get(initialValues.value, f.name)) ==> v == initialValues.value[f.name]
    ensures (initialValues.None? || Nullish(Get(initialValues.value, f.name))) && !Nullish(f.defaultValue) ==> v == f.defaultValue
    ensures (initialValues.None? || Nullish(Get(initialValues.value, f.name))) && Nullish(f.defaultValue) ==> v == Str("")
  {
    var given := if initialValues.Some? then Get(initialValues.value, f.name) else Undefined;
    Coalesce(Coalesce(given, f.defaultValue), Str(""))
  }

  /** `defaultValue ?? ''`. */
  function ResetValue(f: Field): (v: Value)
    ensures !Nullish(v)
    ensures !Nullish(f.defaultValue) ==> v == f.defaultValue
    ensures Nullish(f.defaultValue) ==> v == Str("")
  {
    Coalesce(f.defaultValue, Str(""))
  }

  /** A field that no later field of the list shares its name with. */
  predicate LastOfName(fields: seq<Field>, i: int)
    requires 0 <= i < |fields|
  {
    forall j :: i < j < |fields| ==> fields[j].name != fields[i].name
  }

  /** The names of the fields. */
  function Names(fields: seq<Field>): set<string>
  {
    set f | f in fields :: f.name
  }

  /**
   * The object the `forEach` over the fields builds: one key per field
   * name, a later field of the same name overwriting an earlier one.
   */
  function InitialData(fields: seq<Field>, initialValues: Option<Obj>): (r: Obj)
    ensures r.Keys == Names(fields)
  {
    if fields == [] then map[]
    else
      var init, f := fields[..|fields| - 1], fields[|fields| - 1];
      InitialData(init, initialValues)[f.name := InitialValue(f, initialValues)]
  }

  /** The object `handleReset` builds the same way from the defaults alone. */
  function ResetData(fields: seq<Field>): (r: Obj)
    ensures r.Keys == Names(fields)
  {
    if fields == [] then map[]
    else
      var init, f := fields[..|fields| - 1], fields[|fields| - 1];
      ResetData(init)[f.name := ResetValue(f)]
  }

  /** The entry of a field that no later field shares its name with is that field's initial value. */
  lemma {:induction false} InitialDataOfField(fields: seq<Field>, initialValues: Option<Obj>, i: int)
    requires 0 <= i < |fields| && LastOfName(fields, i)
    ensures InitialData(fields, initialValues)[fields[i].name] == InitialValue(fields[i], initialValues)
    decreases |fields|
  {
    if i < |fields| - 1 {
      InitialDataOfField(fields[..|fields| - 1], initialValues, i);
    }
  }

  /** The entry of a field that no later field shares its name with is that field's default. */
  lemma {:induction false} ResetDataOfField(fields: seq<Field>, i: int)
    requires 0 <= i < |fields| && LastOfName(fields, i)
    ensures ResetData(fields)[fields[i].name] == ResetValue(fields[i])
    decreases |fields|
  {
    if i < |fields| - 1 {
      ResetDataOfField(fields[..|fields| - 1], i);
    }
  }

  /** Resetting gives what opening the form without initial values gives. */
  lemma {:induction false} ResetIsFreshForm(fields: seq<Field>)
    ensures ResetData(fields) == InitialData(fields, None)
    decreases |fields|
  {
    if fields != [] {
      ResetIsFreshForm(fields[..|fields| - 1]);
    }
  }

  /**
   * The value a change event stores: a number field's text as a number, or
   * the empty string when it is cleared; any other field's text as it is.
   */
  function ChangedValue(value: string, inputType: string): (r: Value)
    ensures inputType != "number" ==> r == Str(value)
    ensures inputType == "number" && value == "" ==> r == Str("")
    ensures inputType == "number" && value != "" ==> r.Num? || r.NaN?
  {
    if inputType == "number" then
      if value == "" then Str("") else ToNumber(Str(value))
    else Str(value)
  }

  /** A number field holding the text of a number stores that number. */
  lemma NumberFieldStoresNumber(n: int)
    ensures ChangedValue(Text.IntToString(n), "number") == Num(n)
  {
    ToNumberOfRendering(n);
  }

  class Modal {
    const fields: seq<Field>
    var formData: Obj

    /** The `useState` initialiser: one `forEach` over the fields. */
    constructor(fields: seq<Field>, initialValues: Option<Obj>)
      ensures this.fields == fields
      ensures formData == InitialData(fields, initialValues)
    {
      this.fields := fields;
      var initial: Obj := map[];
      for i := 0 to |fields|
        invariant initial == InitialData(fields[..i], initialValues)
      {
        assert fields[..i + 1][..i] == fields[..i];
        initial := initial[fields[i].name := InitialValue(fields[i], initialValues)];
      }
      assert fields[..|fields|] == fields;
      formData := initial;
    }

    /** `handleChange`: only the changed field's entry is replaced. */
    method HandleChange(name: string, value: string, inputType: string)
      modifies this
      ensures formData == old(formData)[name := ChangedValue(value, inputType)]
      ensures forall k :: k != name ==> (k in formData <==> k in old(formData)) && Get(formData, k) == Get(old(formData), k)
    {
      formData := formData[name := ChangedValue(value, inputType)];
    }

    /** `handleSubmit`: the page receives the form data as it stands. */
    method HandleSubmit() returns (submitted: Obj)
      ensures submitted == formData
    {
      submitted := formData;
    }

    /** `handleReset`: one `forEach` over the fields, from the defaults alone. */
    method HandleReset()
      modifies this
      ensures formData == ResetData(fields)
      ensures formData == InitialData(fields, None)
    {
      var resetData: Obj := map[];
      for i := 0 to |fields|
        invariant resetData == ResetData(fields[..i])
      {
        assert fields[..i + 1][..i] == fields[..i];
        resetData := resetData[fields[i].name := ResetValue(fields[i])];
      }
      assert fields[..|fields|] == fields;
      formData := resetData;
      ResetIsFreshForm(fields);
    }
  }

  datatype ColorClasses = ColorClasses(border: string, bg: string, text: string, ring: string)

  /** The eight styles, in the order the fields take them. */
  const Styles: seq<ColorClasses> := [
    ColorClasses("border-l-4 border-pink-500", "bg-pink-100", "text-pink-600", "focus:ring-pink-300"),
    ColorClasses("border-l-4 border-blue-500", "bg-blue-100", "text-blue-600", "focus:ring-blue-300"),
    ColorClasses("border-l-4 border-green-500", "bg-green-100", "text-green-600", "focus:ring-green-300"),
    ColorClasses("border-l-4 border-purple-500", "bg-purple-100", "text-purple-600", "focus:ring-purple-300"),
    ColorClasses("border-l-4 border-orange-500", "bg-orange-100", "text-orange-600", "focus:ring-orange-300"),
    ColorClasses("border-l-4 border-amber-500", "bg-amber-100", "text-amber-600", "focus:ring-amber-300"),
    ColorClasses("border-l-4 border-rose-500", "bg-rose-100", "text-rose-600", "focus:ring-rose-300"),
    ColorClasses("border-l-4 border-indigo-500", "bg-indigo-100", "text-indigo-600", "focus:ring-indigo-300")
  ]

  /** `getColorClasses(index)`: the styles repeat every eight fields. */
  function GetColorClasses(index: nat): (r: ColorClasses)
    ensures r in Styles
    ensures forall j :: 0 <= j < |Styles| ==> (r == Styles[j] <==> j == index % 8)
  {
    Styles[index % 8]
  }

  /** Fields eight places apart share their colours; neighbouring fields never do. */
  lemma ColoursRepeat(index: nat)
    ensures GetColorClasses(index + 8) == GetColorClasses(index)
    ensures GetColorClasses(index + 1) != GetColorClasses(index)
  {
    assert (index + 8) % 8 == index % 8;
  }

  /** The hints, by field name. */
  const Guides: map<string, string> := map[
    "name" := "🌸 Gunakan nama yang mudah diingat & jelas. Contoh: \"Baju Kaos Katun\"",
    "price" := "💰 Jangan takut hargai usahamu! Harga = biaya + keuntungan kecil.",
    "category" := "🏷️ Contoh: Pakaian, Aksesoris, Makanan, dll.",
    "stock" := "📦 Stok 0 = habis. Bisa diisi nanti setelah produksi.",
    "image" := "📸 Bisa pakai foto dari HP! URL harus diawali https://",
    "description" := "💬 Ceritakan singkat tentang produk ini. Apa yang membuatnya spesial?",
    "notes" := "📝 Catatan opsional: bahan, ukuran, atau info khusus.",
    "quantity" := "🔢 Jumlah barang yang dibeli/dibuat.",
    "paymentMethod" := "💳 Pilih metode yang sering kamu gunakan."
  ]

  /** `getHelperText(name)`: the field's hint, or nothing for a field without one. */
  function GetHelperText(fieldName: string): (r: string)
    ensures r != "" <==> fieldName in Guides
    ensures fieldName in Guides ==> r == Guides[fieldName]
  {
    if fieldName in Guides then Guides[fieldName] else ""
  }
}
