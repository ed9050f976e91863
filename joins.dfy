/** Resolving a sale's foreign keys with `Array.prototype.find`: the
    first dealer (model) whose ID matches wins, and a sale whose ID
    matches nothing resolves to undefined. */
module Joins {
  import opened DataTypes
  import opened Seqs

  /** `dealers.find(d => d.DealerID === sale.DealerID)` */
  function DealerOf(dealers: seq<Dealer>, s: Sale): Option<Dealer> {
    Find(dealers, HasDealerId(s.dealerId))
  }

  /** `models.find(m => m.ModelID === sale.ModelID)` */
  function ModelOf(models: seq<CarModel>, s: Sale): Option<CarModel> {
    Find(models, HasModelId(s.modelId))
  }

  function DealerJoin(dealers: seq<Dealer>): Sale -> Option<Dealer> {
    (s: Sale) => DealerOf(dealers, s)
  }

  function ModelJoin(models: seq<CarModel>): Sale -> Option<CarModel> {
    (s: Sale) => ModelOf(models, s)
  }

  /** The join finds a dealer exactly when some dealer has the sale's
      DealerID, and what it finds is the first such dealer. */
  lemma DealerOfSpec(dealers: seq<Dealer>, s: Sale)
    ensures DealerOf(dealers, s).Some? <==> exists d :: d in dealers && d.dealerId == s.dealerId
    ensures DealerOf(dealers, s).Some? ==>
              exists i :: 0 <= i < |dealers| && dealers[i] == DealerOf(dealers, s).value
                && dealers[i].dealerId == s.dealerId
                && forall j :: 0 <= j < i ==> dealers[j].dealerId != s.dealerId
  {
    FindSpec(dealers, HasDealerId(s.dealerId));
    var r := DealerOf(dealers, s);
    if r.None? {
      forall d | d in dealers ensures d.dealerId != s.dealerId {
        var i :| 0 <= i < |dealers| && dealers[i] == d;
        assert !HasDealerId(s.dealerId)(dealers[i]);
      }
    }
  }

  /** With unique dealer IDs the first match is the only match. */
  lemma DealerOfUnique(dealers: seq<Dealer>, s: Sale, d: Dealer)
    requires Distinct(Map(dealers, DealerIdOf))
    requires d in dealers && d.dealerId == s.dealerId
    ensures DealerOf(dealers, s) == Some(d)
  {
    DealerOfSpec(dealers, s);
    var i :| 0 <= i < |dealers| && dealers[i] == DealerOf(dealers, s).value && dealers[i].dealerId == s.dealerId;
    var k :| 0 <= k < |dealers| && dealers[k] == d;
    var ids := Map(dealers, DealerIdOf);
    assert ids[i] == ids[k];
  }

  /** The join finds a model exactly when some model has the sale's ModelID. */
  lemma ModelOfSpec(models: seq<CarModel>, s: Sale)
    ensures ModelOf(models, s).Some? <==> exists m :: m in models && m.modelId == s.modelId
    ensures ModelOf(models, s).Some? ==>
              exists i :: 0 <= i < |models| && models[i] == ModelOf(models, s).value
                && models[i].modelId == s.modelId
                && forall j :: 0 <= j < i ==> models[j].modelId != s.modelId
  {
    FindSpec(models, HasModelId(s.modelId));
    var r := ModelOf(models, s);
    if r.None? {
      forall m | m in models ensures m.modelId != s.modelId {
        var i :| 0 <= i < |models| && models[i] == m;
        assert !HasModelId(s.modelId)(models[i]);
      }
    }
  }

  /** With unique model IDs the first match is the only match. */
  lemma ModelOfUnique(models: seq<CarModel>, s: Sale, m: CarModel)
    requires Distinct(Map(models, ModelIdOf))
    requires m in models && m.modelId == s.modelId
    ensures ModelOf(models, s) == Some(m)
  {
    ModelOfSpec(models, s);
    var i :| 0 <= i < |models| && models[i] == ModelOf(models, s).value && models[i].modelId == s.modelId;
    var k :| 0 <= k < |models| && models[k] == m;
    var ids := Map(models, ModelIdOf);
    assert ids[i] == ids[k];
  }
}
