/** The assets card: a form for something owned and add / delete on the asset list. */
module Assets {
  import opened Records
  import opened Folds

  /** The `newAsset` buffer; the type comes from a four-way select. */
  datatype AssetForm = AssetForm(name: string, value: real, kind: AssetType)

  const DefaultForm := AssetForm("", 0.0, Investment)

  /** Add accepts a form with a name and a non-zero value. */
  predicate Accepts(f: AssetForm) { f.name != "" && f.value != 0.0 }

  function NewAsset(f: AssetForm, id: int): Asset
  {
    Asset(id, f.name, f.value, f.kind)
  }

  class AssetCard {
    /** The list owned by the parent and replaced through `setAssets`. */
    var assets: seq<Asset>
    var form: AssetForm

    constructor (assets: seq<Asset>)
      ensures this.assets == assets && form == DefaultForm
    {
      this.assets := assets;
      form := DefaultForm;
    }

    /** An input's change handler: replaces the buffer. */
    method Edit(f: AssetForm)
      modifies this
      ensures form == f && assets == old(assets)
    {
      form := f;
    }

    /** `addAsset`: append one record and restore the default form, or do nothing. */
    method Add(id: int) returns (added: bool)
      modifies this
      ensures added == Accepts(old(form))
      ensures added ==> assets == old(assets) + [NewAsset(old(form), id)]
      ensures added ==> form == DefaultForm
      ensures !added ==> assets == old(assets) && form == old(form)
    {
      if form.name == "" || form.value == 0.0 {
        return false;
      }
      assets := assets + [NewAsset(form, id)];
      form := DefaultForm;
      return true;
    }

    /** The delete button of a row: keep every asset whose id differs. */
    method Delete(id: int)
      modifies this
      ensures assets == RemoveId(old(assets), AssetId, id)
      ensures form == old(form)
    {
      assets := RemoveId(assets, AssetId, id);
    }
  }
}
